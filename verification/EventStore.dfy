/**
  The event store and the outbox under any number of concurrent handlers. A
  handler loads the log, decides, and saves: one INSERT per event under the unique
  (order, version) constraint, one INSERT per outbox message, COMMIT. Outbox ids
  come from a counter that no rollback sets back, so across orders they need not
  follow the order of the commits.
*/
module EventStore {
  import opened Results
  import opened OrderValues
  import opened OrderAggregate
  import opened Codec

  type TxnId = nat

  // ---- what is published ----

  datatype MessageItem = MessageItem(sku: string, qty: int, unitPriceMinor: int)

  /** The integration events of the contracts package. */
  datatype Message =
    | PlacedMessage(order: OrderId, customer: CustomerId, items: seq<MessageItem>, shipTo: Address,
                    totalMinor: int, currency: string, placedAt: Time)
    | ConfirmedMessage(order: OrderId, at: Time)
    | CancelledMessage(order: OrderId, reason: string, at: Time)

  function MessageOf(e: Event): (m: Message)
    ensures m.order == e.order
  {
    match e
    case OrderPlaced(o, c, items, shipTo, total, at) =>
      PlacedMessage(o, c, seq(|items|, i requires 0 <= i < |items| => MessageItem(items[i].sku, items[i].qty, items[i].price.minor)),
                    shipTo, total.minor, total.currency, at)
    case OrderConfirmed(o, at) => ConfirmedMessage(o, at)
    case OrderCancelled(o, reason, at) => CancelledMessage(o, reason, at)
  }

  function MessagesOf(events: seq<Event>): (r: seq<Message>)
    ensures |r| == |events|
  {
    seq(|events|, i requires 0 <= i < |events| => MessageOf(events[i]))
  }

  // ---- state ----

  datatype Job =
    | Placing(event: Event)                       // PlaceOrder's staged event
    | Commanding(command: Command, now: Time)     // Confirm or Cancel

  datatype Outcome = Saved | NoChange | Refused(error: OrderError) | Broken

  datatype Pc =
    | Loading
    | InsertingEvent(done: nat)
    | InsertingOutbox(done: nat)
    | Committing
    | Ended(outcome: Outcome)

  /** A handler: its aggregate (view, version, changes) and the outbox ids it was given. */
  datatype Writer = Writer(order: OrderId, job: Job, view: View, version: nat, changes: seq<Event>, ids: seq<nat>, pc: Pc) {
    predicate Active() { !pc.Ended? }

    predicate Saving() { pc.InsertingEvent? || pc.InsertingOutbox? || pc.Committing? }

    /** Event rows inserted and not committed. */
    function Inserted(): nat {
      match pc
      case InsertingEvent(k) => k
      case InsertingOutbox(_) => |changes|
      case Committing => |changes|
      case _ => 0
    }

    function Expected(): int { version - |changes| }
  }

  datatype OutRow = OutRow(order: OrderId, message: Message)

  /** log[o][v - 1] is the committed event of version v; a row stores its encoding. */
  datatype State = State(log: map<OrderId, seq<Event>>, outbox: map<nat, OutRow>, nextId: nat, writers: map<TxnId, Writer>)

  const INITIAL := State(map[], map[], 0, map[])

  datatype Step = Start(txn: TxnId, order: OrderId, job: Job) | Exec(txn: TxnId) | Abort(txn: TxnId)

  function LogAt(s: State, o: OrderId): seq<Event> {
    if o in s.log then s.log[o] else []
  }

  // ---- statements ----

  function EachRead(history: seq<Event>): (r: seq<Result<Event, OrderError>>)
    ensures |r| == |history|
  {
    seq(|history|, i requires 0 <= i < |history| => Read(history[i]))
  }

  /** A stored row read back. */
  function Read(e: Event): Result<Event, OrderError> {
    Decoded(TypeOf(e), Encoded(e))
  }

  /** Load: decode every row of the order, in version order. */
  function Loaded(history: seq<Event>): Result<seq<Event>, OrderError> {
    if history == [] then Err(OrderNotFound) else Collect(EachRead(history))
  }

  function Finish(x: Writer, outcome: Outcome): Writer {
    x.(pc := Ended(outcome))
  }

  function LoadStatement(s: State, x: Writer): Writer
    requires x.job.Commanding?
  {
    var loaded := Loaded(LogAt(s, x.order));
    if loaded.Err? then Finish(x, Refused(loaded.error))
    else
      var view := Fold(loaded.value);
      var d := Decide(view, x.job.command, x.job.now);
      if d.Err? then Finish(x, Refused(d.error))
      else
        var raised := Raised(view, x.job.command, x.job.now);
        if raised == [] then Finish(x, NoChange)
        else x.(view := Applied(view, raised[0]), version := |loaded.value| + 1, changes := raised, pc := InsertingEvent(0))
  }

  /** The version that the next INSERT carries. */
  function NextVersion(x: Writer): int {
    x.Expected() + x.Inserted() + 1
  }

  function InsertEvent(s: State, x: Writer): Writer
    requires x.pc.InsertingEvent?
  {
    if NextVersion(x) <= |LogAt(s, x.order)| then Finish(x, Refused(ConcurrencyConflict))
    else if x.pc.done + 1 < |x.changes| then x.(pc := InsertingEvent(x.pc.done + 1))
    else x.(pc := InsertingOutbox(0))
  }

  function InsertOutbox(s: State, x: Writer): Writer
    requires x.pc.InsertingOutbox?
  {
    x.(ids := x.ids + [s.nextId],
       pc := if x.pc.done + 1 < |x.changes| then InsertingOutbox(x.pc.done + 1) else Committing)
  }

  /** `t` has to wait for the end of `u`, which has inserted the same version. */
  predicate WaitsFor(s: State, t: TxnId, u: TxnId) {
    && t in s.writers && u in s.writers && t != u
    && var x, y := s.writers[t], s.writers[u];
       && x.pc.InsertingEvent? && y.Active() && y.order == x.order
       && y.Expected() < NextVersion(x) <= y.Expected() + y.Inserted()
  }

  /** Placements carry events made from validated values. */
  predicate Validated(e: Event) {
    e.OrderPlaced? ==>
      && Placeable(e.order, e.items) && CanonicalItems(e.items) && CanonicalAddress(e.shipTo)
      && e == Placement(e.order, e.customer, e.items, e.shipTo, e.at)
  }

  predicate Enabled(s: State, step: Step) {
    match step
    case Start(t, o, job) =>
      t !in s.writers && (job.Placing? ==> job.event.OrderPlaced? && job.event.order == o && Validated(job.event))
    case Exec(t) =>
      && t in s.writers && s.writers[t].Active()
      && (s.writers[t].pc == Loading ==> s.writers[t].job.Commanding?)
      && (forall u | u in s.writers :: !WaitsFor(s, t, u))
    case Abort(t) => t in s.writers && s.writers[t].Active()
  }

  function NewWriter(o: OrderId, job: Job): Writer {
    match job
    case Placing(e) => Writer(o, job, Applied(BLANK, e), 1, [e], [], InsertingEvent(0))
    case Commanding(_, _) => Writer(o, job, BLANK, 0, [], [], Loading)
  }

  function OutRows(outbox: map<nat, OutRow>, ids: seq<nat>, changes: seq<Event>): map<nat, OutRow>
    requires |ids| == |changes|
  {
    if ids == [] then outbox
    else
      var n := |ids| - 1;
      OutRows(outbox, ids[..n], changes[..n])[ids[n] := OutRow(changes[n].order, MessageOf(changes[n]))]
  }

  /** A step that is not enabled changes nothing. */
  function Apply(s: State, step: Step): State {
    if !Enabled(s, step) then s
    else match step
    case Start(t, o, job) => s.(writers := s.writers[t := NewWriter(o, job)])
    case Abort(t) => s.(writers := s.writers[t := Finish(s.writers[t], Broken)])
    case Exec(t) =>
      var x := s.writers[t];
      match x.pc
      case Loading => s.(writers := s.writers[t := LoadStatement(s, x)])
      case InsertingEvent(_) => s.(writers := s.writers[t := InsertEvent(s, x)])
      case InsertingOutbox(_) => s.(writers := s.writers[t := InsertOutbox(s, x)], nextId := s.nextId + 1)
      case Committing =>
        if |x.ids| != |x.changes| then s
        else State(s.log[x.order := LogAt(s, x.order) + x.changes], OutRows(s.outbox, x.ids, x.changes), s.nextId,
                   s.writers[t := Finish(x, Saved)])
      case Ended(_) => s
  }

  ghost predicate Run(s: State, steps: seq<Step>, s': State)
    decreases |steps|
  {
    if steps == [] then s == s' else Enabled(s, steps[0]) && Run(Apply(s, steps[0]), steps[1..], s')
  }

  ghost predicate Reachable(s: State) {
    exists steps :: Run(INITIAL, steps, s)
  }

  lemma {:induction false} RunSnoc(s: State, steps: seq<Step>, m: State, step: Step)
    requires Run(s, steps, m) && Enabled(m, step)
    ensures Run(s, steps + [step], Apply(m, step))
    decreases |steps|
  {
    if steps == [] {
      assert Run(Apply(m, step), [], Apply(m, step));
      assert ([step])[1..] == [];
    } else {
      RunSnoc(Apply(s, steps[0]), steps[1..], m, step);
      assert (steps + [step])[1..] == steps[1..] + [step];
    }
  }

  lemma ReachStep(s: State, step: Step)
    requires Reachable(s) && Enabled(s, step)
    ensures Reachable(Apply(s, step))
  {
    var steps :| Run(INITIAL, steps, s);
    RunSnoc(INITIAL, steps, s, step);
  }

  // ---- the outbox of one order ----

  /** Ids below `n` of an order's outbox rows, ascending. */
  function OutIds(outbox: map<nat, OutRow>, o: OrderId, n: nat): seq<nat> {
    if n == 0 then []
    else OutIds(outbox, o, n - 1) + (if n - 1 in outbox && outbox[n - 1].order == o then [n - 1] else [])
  }

  lemma {:induction false} OutIdsIn(outbox: map<nat, OutRow>, o: OrderId, n: nat)
    ensures forall i | 0 <= i < |OutIds(outbox, o, n)| ::
      OutIds(outbox, o, n)[i] < n && OutIds(outbox, o, n)[i] in outbox && outbox[OutIds(outbox, o, n)[i]].order == o
    ensures forall i, j | 0 <= i < j < |OutIds(outbox, o, n)| :: OutIds(outbox, o, n)[i] < OutIds(outbox, o, n)[j]
    ensures forall id | id in outbox && outbox[id].order == o && id < n :: id in OutIds(outbox, o, n)
  {
    if n > 0 { OutIdsIn(outbox, o, n - 1); }
  }

  /** A later id comes last. */
  lemma {:induction false} OutIdsAdd(outbox: map<nat, OutRow>, o: OrderId, n: nat, id: nat, row: OutRow)
    requires id !in outbox
    requires row.order == o ==> forall j | j in outbox && outbox[j].order == o :: j < id
    ensures OutIds(outbox[id := row], o, n) == OutIds(outbox, o, n) + (if id < n && row.order == o then [id] else [])
  {
    if n > 0 {
      OutIdsAdd(outbox, o, n - 1, id, row);
    }
  }

  // ---- invariant, in parts that are kept for different reasons ----

  /** Exactly one outbox row per event of the log, in log order. */
  ghost predicate OutboxFollows(s: State, o: OrderId) {
    var ids := OutIds(s.outbox, o, s.nextId);
    |ids| == |LogAt(s, o)| && forall i | 0 <= i < |ids| :: ids[i] in s.outbox && s.outbox[ids[i]].message == MessageOf(LogAt(s, o)[i])
  }

  ghost predicate OutboxOk(s: State) {
    forall o :: OutboxFollows(s, o)
  }

  ghost predicate LogsOk(s: State) {
    forall o | o in s.log :: GoodLog(o, s.log[o])
  }

  /** Every event around was made from validated values. */
  ghost predicate EventsOk(s: State) {
    && (forall o, i | o in s.log && 0 <= i < |s.log[o]| :: Validated(s.log[o][i]))
    && (forall t, i | t in s.writers && 0 <= i < |s.writers[t].changes| :: Validated(s.writers[t].changes[i]))
  }

  /** The event that a command is to append to its order's log. */
  function Closing(o: OrderId, command: Command, now: Time): Event {
    match command
    case Confirm => OrderConfirmed(o, now)
    case Cancel(reason) => OrderCancelled(o, reason, now)
  }

  /** How far a writer is. `n` is the length of its order's log. */
  predicate Progress(x: Writer, n: nat) {
    && (x.pc == Loading ==> x.job.Commanding? && x.ids == [])
    && (x.Saving() ==> |x.changes| == 1 && x.changes[0].order == x.order && 0 <= x.Expected() <= n)
    && (x.Saving() && x.job.Commanding? ==>
          x.Expected() > 0 && x.changes == [Closing(x.order, x.job.command, x.job.now)])
    && (x.pc.InsertingEvent? ==> x.pc.done == 0 && x.ids == [])
    && (x.pc.InsertingOutbox? ==> x.pc.done == 0 && x.ids == [] && x.Expected() == n)
    && (x.pc.Committing? ==> |x.ids| == 1 && x.Expected() == n)
  }

  /** The id in hand is later than those of the order's rows. */
  predicate IdOk(x: Writer, outbox: map<nat, OutRow>, nextId: nat) {
    x.pc.Committing? && |x.ids| == 1 ==>
      && x.ids[0] < nextId && x.ids[0] !in outbox
      && forall j | j in outbox && outbox[j].order == x.order :: j < x.ids[0]
  }

  /** If nobody has appended meanwhile, the appended log is good, and the aggregate in memory is its fold. */
  predicate Fits(x: Writer, history: seq<Event>) {
    x.Saving() && x.Expected() == |history| ==>
      && GoodLog(x.order, history + x.changes) && x.view == Fold(history + x.changes)
      && (x.job.Commanding? ==> x.view.status == Goal(x.job.command))
  }

  /** No two writers hold one version, and no two got one id. */
  predicate PairOk(x: Writer, y: Writer) {
    && !(x.Saving() && y.Saving() && x.Inserted() > 0 && y.Inserted() > 0 && x.order == y.order)
    && (x.pc.Committing? && y.pc.Committing? && |x.ids| == 1 && |y.ids| == 1 ==> x.ids[0] != y.ids[0])
  }

  ghost predicate WritersOk(s: State) {
    && (forall id | id in s.outbox :: id < s.nextId)
    && (forall t | t in s.writers :: Progress(s.writers[t], |LogAt(s, s.writers[t].order)|))
    && (forall t | t in s.writers :: IdOk(s.writers[t], s.outbox, s.nextId))
    && (forall t, u | t in s.writers && u in s.writers && t != u :: PairOk(s.writers[t], s.writers[u]))
  }

  ghost predicate ViewsOk(s: State) {
    forall t | t in s.writers :: Fits(s.writers[t], LogAt(s, s.writers[t].order))
  }

  ghost predicate Inv(s: State) {
    WritersOk(s) && ViewsOk(s) && LogsOk(s) && EventsOk(s) && OutboxOk(s)
  }

  // ---- loading ----

  /** A stored event reads back as itself, unless it is a placement whose total went negative. */
  lemma ReadBack(e: Event)
    requires Validated(e)
    ensures Read(e).Ok? <==> (e.OrderPlaced? ==> e.total.minor >= 0)
    ensures Read(e).Ok? ==> Read(e) == Ok(e)
  {
    if e.OrderPlaced? {
      PlacementReadable(e.order, e.customer, e.items, e.shipTo, e.at);
    } else {
      RoundTripIff(e);
    }
  }

  /** `rs` are the rows of a good log, read back. */
  predicate ReadsAs(rs: seq<Result<Event, OrderError>>, history: seq<Event>) {
    && |rs| == |history| > 0 && history[0].OrderPlaced?
    && (rs[0].Ok? <==> history[0].total.minor >= 0)
    && (forall i | 0 < i < |rs| :: rs[i].Ok?)
    && (forall i | 0 <= i < |rs| && rs[i].Ok? :: rs[i].value == history[i])
  }

  lemma CollectReads(rs: seq<Result<Event, OrderError>>, history: seq<Event>)
    requires ReadsAs(rs, history)
    ensures Collect(rs).Ok? <==> history[0].total.minor >= 0
    ensures Collect(rs).Ok? ==> Collect(rs).value == history
  {
    CollectAt(rs);
  }

  /** What a row reads back as, once its reading is known. */
  predicate ReadingOk(e: Event, r: Result<Event, OrderError>) {
    (r.Ok? <==> (e.OrderPlaced? ==> e.total.minor >= 0)) && (r.Ok? ==> r.value == e)
  }

  lemma ReadingAt(history: seq<Event>, i: nat)
    requires i < |history| && Validated(history[i])
    ensures ReadingOk(history[i], EachRead(history)[i])
  {
    ReadBack(history[i]);
  }

  /** What loads is the log, and it loads unless the placement's total went negative. */
  lemma LoadedIsLog(o: OrderId, history: seq<Event>)
    requires GoodLog(o, history) && Validated(history[0])
    ensures Loaded(history).Ok? <==> history[0].total.minor >= 0
    ensures Loaded(history).Ok? ==> Loaded(history).value == history
  {
    forall i | 0 <= i < |history| ensures ReadingOk(history[i], EachRead(history)[i]) {
      ReadingAt(history, i);
    }
    CollectReads(EachRead(history), history);
  }
}
