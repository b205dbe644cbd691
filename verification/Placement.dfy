/**
  Submissions under client keys. A submission claims its key, with the order id it
  would use, before it builds and saves the order; whoever finds the key taken
  answers with the id on record. Any submission may crash between two statements.
*/
module Placement {
  import opened Results
  import opened OrderValues
  import opened OrderAggregate
  import opened EventStore

  type SubId = nat

  datatype Pc =
    | Claiming                 // INSERT ... ON CONFLICT DO NOTHING
    | Looking                  // the SELECT after a conflict
    | Building                 // PlaceOrder, in memory
    | Saving(txn: TxnId)       // Save, one statement after the other
    | Over

  /** `claimed`: the INSERT stored this submission's id under its key. */
  datatype Sub = Sub(key: string, order: OrderId, event: Event, claimed: bool, pc: Pc)

  datatype Reply = Reply(key: string, order: OrderId)

  datatype Front = Front(store: State, keys: map<string, OrderId>, subs: map<SubId, Sub>, replies: seq<Reply>)

  const EMPTY_FRONT := Front(EventStore.INITIAL, map[], map[], [])

  datatype Act =
    | Submit(sub: SubId, key: string, order: OrderId, customer: CustomerId, items: seq<LineItem>, shipTo: Address, now: Time)
    | Claim(sub: SubId)
    | Look(sub: SubId)
    | Build(sub: SubId, txn: TxnId)
    | Store(step: Step)        // a statement of anybody's save, or of a confirm or cancel
    | Finish(sub: SubId)       // the save has ended; reply, or report its error
    | Crash(sub: SubId)

  predicate Can(f: Front, a: Act) {
    match a
    case Submit(i, _, o, _, items, shipTo, _) =>
      i !in f.subs && items != [] && CanonicalItems(items) && CanonicalAddress(shipTo) && forall j | j in f.subs :: f.subs[j].order != o
    case Claim(i) => i in f.subs && f.subs[i].pc == Claiming
    case Look(i) => i in f.subs && f.subs[i].pc == Looking && f.subs[i].key in f.keys
    case Build(i, t) => i in f.subs && f.subs[i].pc == Building && t !in f.store.writers
    case Store(step) =>
      EventStore.Enabled(f.store, step) && (step.Start? ==> step.job.Commanding?)
    case Finish(i) =>
      i in f.subs && f.subs[i].pc.Saving? && f.subs[i].pc.txn in f.store.writers && f.store.writers[f.subs[i].pc.txn].pc.Ended?
    case Crash(i) => i in f.subs && f.subs[i].pc != Over
  }

  /** The aggregate accepts the lines, which were validated before the claim. */
  predicate Accepts(e: Event) {
    e.OrderPlaced? && Validated(e)
  }

  function Done(f: Front, a: Act): Front
    requires Can(f, a)
  {
    match a
    case Submit(i, key, o, c, items, shipTo, now) =>
      f.(subs := f.subs[i := Sub(key, o, Placement(o, c, items, shipTo, now), false, Claiming)])
    case Claim(i) =>
      var x := f.subs[i];
      if x.key in f.keys then f.(subs := f.subs[i := x.(pc := Looking)])
      else f.(keys := f.keys[x.key := x.order], subs := f.subs[i := x.(claimed := true, pc := Building)])
    case Look(i) =>
      var x := f.subs[i];
      f.(subs := f.subs[i := x.(pc := Over)], replies := f.replies + [Reply(x.key, f.keys[x.key])])
    case Build(i, t) =>
      var x := f.subs[i];
      if Accepts(x.event) && x.event.order == x.order then
        f.(store := EventStore.Apply(f.store, Start(t, x.order, Placing(x.event))), subs := f.subs[i := x.(pc := Saving(t))])
      else f.(subs := f.subs[i := x.(pc := Over)])
    case Store(step) => f.(store := EventStore.Apply(f.store, step))
    case Finish(i) =>
      var x := f.subs[i];
      f.(subs := f.subs[i := x.(pc := Over)],
         replies := if f.store.writers[x.pc.txn].pc == EventStore.Ended(Saved) then f.replies + [Reply(x.key, x.order)] else f.replies)
    case Crash(i) => f.(subs := f.subs[i := f.subs[i].(pc := Over)])
  }

  ghost predicate Runs(f: Front, acts: seq<Act>, f': Front)
    decreases |acts|
  {
    if acts == [] then f == f' else Can(f, acts[0]) && Runs(Done(f, acts[0]), acts[1..], f')
  }

  ghost predicate ReachableFront(f: Front) {
    exists acts :: Runs(EMPTY_FRONT, acts, f)
  }

  // ---- invariant ----

  /** The submission that has the right to store order `o`. */
  predicate ClaimedBy(f: Front, i: SubId, o: OrderId) {
    i in f.subs && f.subs[i].order == o && f.subs[i].claimed
  }

  ghost predicate HasClaim(f: Front, o: OrderId) {
    exists i :: ClaimedBy(f, i, o)
  }

  /** Ids are unique, a claim is on record under its key, and only claimants go on. */
  ghost predicate SubsOk(subs: map<SubId, Sub>, keys: map<string, OrderId>) {
    && (forall i, j | i in subs && j in subs && i != j :: subs[i].order != subs[j].order)
    && (forall i | i in subs && subs[i].claimed :: subs[i].key in keys && keys[subs[i].key] == subs[i].order)
    && (forall i | i in subs && (subs[i].pc.Building? || subs[i].pc.Saving?) :: subs[i].claimed)
  }

  predicate RepliesOk(replies: seq<Reply>, keys: map<string, OrderId>) {
    forall k | 0 <= k < |replies| :: replies[k].key in keys && keys[replies[k].key] == replies[k].order
  }

  /** Only claimants' orders are stored, or on their way there. */
  ghost predicate StoreOk(f: Front) {
    && (forall o | o in f.store.log :: HasClaim(f, o))
    && (forall t | t in f.store.writers && f.store.writers[t].job.Placing? :: HasClaim(f, f.store.writers[t].order))
    && (forall t | t in f.store.writers && f.store.writers[t].job.Commanding? && f.store.writers[t].Saving() :: f.store.writers[t].order in f.store.log)
  }

  ghost predicate FrontOk(f: Front) {
    SubsOk(f.subs, f.keys) && RepliesOk(f.replies, f.keys) && StoreOk(f)
  }

  /** Claims stay. */
  ghost predicate ClaimsKept(subs: map<SubId, Sub>, subs': map<SubId, Sub>) {
    forall i | i in subs && subs[i].claimed :: i in subs' && subs'[i].claimed && subs'[i].order == subs[i].order
  }

  lemma ClaimLasts(f: Front, f': Front, o: OrderId)
    requires HasClaim(f, o) && ClaimsKept(f.subs, f'.subs)
    ensures HasClaim(f', o)
  {
    var i :| ClaimedBy(f, i, o);
    assert ClaimedBy(f', i, o);
  }

  /** A statement on the store adds a log only for the order of its writer. */
  lemma StoreFrame(s: State, step: Step)
    requires EventStore.Enabled(s, step)
    ensures var s' := EventStore.Apply(s, step);
      && (forall o | o in s'.log :: o in s.log || (step.Exec? && step.txn in s.writers && s.writers[step.txn].Saving() && o == s.writers[step.txn].order))
      && (forall t | t in s'.writers :: t in s.writers || (step.Start? && t == step.txn))
      && (forall t | t in s'.writers && t in s.writers :: s'.writers[t].order == s.writers[t].order && s'.writers[t].job == s.writers[t].job)
      && (forall o | o in s.log :: o in s'.log)
  {
  }

  lemma CommandsLoaded(s: State, step: Step, t: TxnId)
    requires EventStore.Enabled(s, step) && t in EventStore.Apply(s, step).writers
    requires t in s.writers && s.writers[t].job.Commanding? && s.writers[t].Saving() ==> s.writers[t].order in s.log
    ensures var s' := EventStore.Apply(s, step);
      s'.writers[t].job.Commanding? && s'.writers[t].Saving() ==> s'.writers[t].order in s'.log
  {
    if step.Exec? && step.txn == t && s.writers[t].pc == Loading {
      assert Loaded([]) == Err(OrderNotFound);
    }
  }

  lemma StoreKeeps(f: Front, step: Step)
    requires FrontOk(f) && EventStore.Enabled(f.store, step) && (step.Start? ==> step.job.Commanding?)
    ensures FrontOk(f.(store := EventStore.Apply(f.store, step)))
  {
    var f' := f.(store := EventStore.Apply(f.store, step));
    StoreFrame(f.store, step);
    forall o | o in f'.store.log ensures HasClaim(f', o) {
      assert HasClaim(f, o);
      ClaimLasts(f, f', o);
    }
    forall t | t in f'.store.writers && f'.store.writers[t].job.Placing? ensures HasClaim(f', f'.store.writers[t].order) {
      ClaimLasts(f, f', f.store.writers[t].order);
    }
    forall t | t in f'.store.writers && f'.store.writers[t].job.Commanding? && f'.store.writers[t].Saving()
      ensures f'.store.writers[t].order in f'.store.log
    {
      CommandsLoaded(f.store, step, t);
    }
  }

  lemma SameStore(f: Front, f': Front)
    requires StoreOk(f) && f'.store == f.store && ClaimsKept(f.subs, f'.subs)
    ensures StoreOk(f')
  {
    forall o | o in f'.store.log ensures HasClaim(f', o) { ClaimLasts(f, f', o); }
    forall t | t in f'.store.writers && f'.store.writers[t].job.Placing? ensures HasClaim(f', f'.store.writers[t].order) {
      ClaimLasts(f, f', f.store.writers[t].order);
    }
  }

  /** One submission goes on. */
  lemma SubKeeps(f: Front, i: SubId, x: Sub, replies: seq<Reply>)
    requires FrontOk(f) && i in f.subs && x.order == f.subs[i].order && x.key == f.subs[i].key && x.claimed == f.subs[i].claimed
    requires x.pc.Building? || x.pc.Saving? ==> x.claimed
    requires RepliesOk(replies, f.keys)
    ensures FrontOk(f.(subs := f.subs[i := x], replies := replies))
  {
    SameStore(f, f.(subs := f.subs[i := x], replies := replies));
  }

  lemma SubmitKeeps(f: Front, i: SubId, x: Sub)
    requires FrontOk(f) && i !in f.subs && !x.claimed && x.pc == Claiming && forall j | j in f.subs :: f.subs[j].order != x.order
    ensures FrontOk(f.(subs := f.subs[i := x]))
  {
    SameStore(f, f.(subs := f.subs[i := x]));
  }

  lemma ClaimKeeps(f: Front, i: SubId)
    requires FrontOk(f) && i in f.subs && f.subs[i].key !in f.keys
    ensures FrontOk(f.(keys := f.keys[f.subs[i].key := f.subs[i].order], subs := f.subs[i := f.subs[i].(claimed := true, pc := Building)]))
  {
    SameStore(f, f.(keys := f.keys[f.subs[i].key := f.subs[i].order], subs := f.subs[i := f.subs[i].(claimed := true, pc := Building)]));
  }

  lemma SaveStarts(f: Front, i: SubId, t: TxnId, e: Event)
    requires FrontOk(f) && i in f.subs && f.subs[i].claimed && t !in f.store.writers
    requires EventStore.Enabled(f.store, Start(t, f.subs[i].order, Placing(e)))
    ensures FrontOk(f.(store := EventStore.Apply(f.store, Start(t, f.subs[i].order, Placing(e)))))
  {
    var f' := f.(store := EventStore.Apply(f.store, Start(t, f.subs[i].order, Placing(e))));
    assert ClaimedBy(f', i, f.subs[i].order);
    forall o | o in f'.store.log ensures HasClaim(f', o) { ClaimLasts(f, f', o); }
    forall u | u in f'.store.writers && f'.store.writers[u].job.Placing? ensures HasClaim(f', f'.store.writers[u].order) {
      if u != t { ClaimLasts(f, f', f.store.writers[u].order); }
    }
  }

  lemma BuildKeeps(f: Front, i: SubId, t: TxnId)
    requires FrontOk(f) && Can(f, Build(i, t))
    ensures FrontOk(Done(f, Build(i, t)))
  {
    var x := f.subs[i];
    if Accepts(x.event) && x.event.order == x.order {
      SaveStarts(f, i, t, x.event);
      SubKeeps(f.(store := EventStore.Apply(f.store, Start(t, x.order, Placing(x.event)))), i, x.(pc := Saving(t)), f.replies);
    } else {
      SubKeeps(f, i, x.(pc := Over), f.replies);
    }
  }

  lemma ActKeeps(f: Front, a: Act)
    requires FrontOk(f) && Can(f, a)
    ensures FrontOk(Done(f, a))
  {
    match a
    case Submit(i, _, _, _, _, _, _) => SubmitKeeps(f, i, Done(f, a).subs[i]);
    case Claim(i) =>
      if f.subs[i].key in f.keys { SubKeeps(f, i, f.subs[i].(pc := Looking), f.replies); } else { ClaimKeeps(f, i); }
    case Look(i) => SubKeeps(f, i, f.subs[i].(pc := Over), Done(f, a).replies);
    case Build(i, t) => BuildKeeps(f, i, t);
    case Store(step) => StoreKeeps(f, step);
    case Finish(i) => SubKeeps(f, i, f.subs[i].(pc := Over), Done(f, a).replies);
    case Crash(i) => SubKeeps(f, i, f.subs[i].(pc := Over), f.replies);
  }

  lemma {:induction false} RunsKeep(f: Front, acts: seq<Act>, f': Front)
    requires FrontOk(f) && Runs(f, acts, f')
    ensures FrontOk(f')
    decreases |acts|
  {
    if acts != [] {
      ActKeeps(f, acts[0]);
      RunsKeep(Done(f, acts[0]), acts[1..], f');
    }
  }

  // ---- what holds of every run ----

  /** At most one order is ever stored for a key. */
  lemma OneOrderPerKey(f: Front, i: SubId, j: SubId)
    requires ReachableFront(f) && i in f.subs && j in f.subs && f.subs[i].key == f.subs[j].key
    requires f.subs[i].order in f.store.log && f.subs[j].order in f.store.log
    ensures f.subs[i].order == f.subs[j].order
  {
    var acts :| Runs(EMPTY_FRONT, acts, f);
    RunsKeep(EMPTY_FRONT, acts, f);
    var a :| ClaimedBy(f, a, f.subs[i].order);
    var b :| ClaimedBy(f, b, f.subs[j].order);
    assert a == i && b == j;
  }

  /** All successful replies under a key name one order. */
  lemma RepliesAgree(f: Front, k: nat, l: nat)
    requires ReachableFront(f) && k < |f.replies| && l < |f.replies| && f.replies[k].key == f.replies[l].key
    ensures f.replies[k].order == f.replies[l].order
  {
    var acts :| Runs(EMPTY_FRONT, acts, f);
    RunsKeep(EMPTY_FRONT, acts, f);
  }

  // ---- a claim without an order ----

  /** The claimant of the key is over, and nothing of its save is left to commit. */
  predicate ClaimLost(f: Front, i: SubId) {
    && i in f.subs && f.subs[i].claimed && f.subs[i].pc == Over && f.subs[i].order !in f.store.log
    && forall t | t in f.store.writers && f.store.writers[t].job.Placing? && f.store.writers[t].order == f.subs[i].order ::
         !f.store.writers[t].Active()
  }

  lemma LostStays(f: Front, a: Act, i: SubId)
    requires FrontOk(f) && ClaimLost(f, i) && Can(f, a)
    ensures ClaimLost(Done(f, a), i)
  {
    if a.Store? {
      StoreFrame(f.store, a.step);
      LostLog(f, a.step, f.subs[i].order);
    }
  }

  lemma LostLog(f: Front, step: Step, o: OrderId)
    requires FrontOk(f) && EventStore.Enabled(f.store, step) && o !in f.store.log
    requires forall t | t in f.store.writers && f.store.writers[t].job.Placing? && f.store.writers[t].order == o :: !f.store.writers[t].Active()
    ensures o !in EventStore.Apply(f.store, step).log
  {
    StoreFrame(f.store, step);
  }

  /**
    A submission that claims its key and then fails, for want of distinct SKUs or of
    one currency, in a crash, or in its save, leaves the key to an order that is
    never stored: every later reply under the key names that order.
  */
  lemma {:induction false} LostClaimIsForever(f: Front, acts: seq<Act>, f': Front, i: SubId)
    requires FrontOk(f) && ClaimLost(f, i) && Runs(f, acts, f')
    ensures i in f'.subs && f'.subs[i].key == f.subs[i].key && f'.subs[i].order == f.subs[i].order
    ensures f.subs[i].order !in f'.store.log
    ensures forall k | 0 <= k < |f'.replies| && f'.replies[k].key == f.subs[i].key :: f'.replies[k].order == f.subs[i].order
    decreases |acts|
  {
    if acts != [] {
      LostStays(f, acts[0], i);
      ActKeeps(f, acts[0]);
      LostClaimIsForever(Done(f, acts[0]), acts[1..], f', i);
    }
  }

  lemma FreshOrderUnknown(f: Front, o: OrderId)
    requires FrontOk(f) && forall j | j in f.subs :: f.subs[j].order != o
    ensures o !in f.store.log
    ensures forall t | t in f.store.writers && f.store.writers[t].job.Placing? :: f.store.writers[t].order != o
  {
    assert forall i :: !ClaimedBy(f, i, o);
  }

  /** Lines that repeat a SKU or mix currencies are refused only after the claim, so they lose the key. */
  lemma UnplaceableLosesKey(f: Front, i: SubId, key: string, o: OrderId, c: CustomerId, items: seq<LineItem>, shipTo: Address, now: Time, t: TxnId)
    requires ReachableFront(f) && Can(f, Submit(i, key, o, c, items, shipTo, now))
    requires key !in f.keys && !Placeable(o, items) && t !in f.store.writers
    ensures var f1 := Done(f, Submit(i, key, o, c, items, shipTo, now));
      && Can(f1, Claim(i))
      && var f2 := Done(f1, Claim(i));
         Can(f2, Build(i, t)) && ClaimLost(Done(f2, Build(i, t)), i) && f2.keys[key] == o
  {
    var acts :| Runs(EMPTY_FRONT, acts, f);
    RunsKeep(EMPTY_FRONT, acts, f);
    FreshOrderUnknown(f, o);
  }
}
