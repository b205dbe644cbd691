/**
  One order's records on the topic, as positions in its outbox. `ids` are the ids
  of the order's outbox rows, ascending; the first `marked` of them are marked
  published; `topic` is what has been appended so far, copies included.
*/
module TopicOrder {

  predicate Ascending(ids: seq<nat>) {
    forall i, j | 0 <= i < j < |ids| :: ids[i] < ids[j]
  }

  /** A copy of an earlier row comes before position `p`. */
  predicate Before(topic: seq<nat>, id: nat, p: nat) {
    exists q | 0 <= q < p && q < |topic| :: topic[q] == id
  }

  predicate AfterIt(topic: seq<nat>, id: nat, p: nat) {
    exists q | p < q < |topic| :: topic[q] == id
  }

  /** If position `p` is a copy of row `j`, row `j - 1` has been there before. */
  predicate FirstOk(topic: seq<nat>, ids: seq<nat>, p: nat, j: nat) {
    p < |topic| && 0 < j < |ids| && topic[p] == ids[j] ==> Before(topic, ids[j - 1], p)
  }

  ghost predicate FirstsInOrder(topic: seq<nat>, ids: seq<nat>) {
    forall p: nat, j: nat :: FirstOk(topic, ids, p, j)
  }

  /** If position `p` is a copy of row `i`, row `j` comes after it. */
  predicate LastOk(topic: seq<nat>, ids: seq<nat>, i: nat, j: nat, p: nat) {
    i < j < |ids| && p < |topic| && topic[p] == ids[i] ==> AfterIt(topic, ids[j], p)
  }

  /** Every copy of a marked row is followed by a copy of each later marked row. */
  ghost predicate LastsInOrder(topic: seq<nat>, ids: seq<nat>, marked: nat) {
    forall i: nat, j: nat, p: nat | j < marked :: LastOk(topic, ids, i, j, p)
  }

  predicate Known(topic: seq<nat>, ids: seq<nat>, p: nat) {
    p < |topic| ==> topic[p] in ids
  }

  ghost predicate TopicOk(topic: seq<nat>, ids: seq<nat>, marked: nat) {
    && marked <= |ids| && Ascending(ids)
    && (forall p: nat :: Known(topic, ids, p))
    && FirstsInOrder(topic, ids)
    && (forall i | 0 <= i < marked :: ids[i] in topic)
    && LastsInOrder(topic, ids, marked)
  }

  lemma GrowFirsts(topic: seq<nat>, ids: seq<nat>, all: seq<nat>)
    requires FirstsInOrder(topic, ids) && ids <= all && Ascending(all)
    requires forall p: nat :: Known(topic, ids, p)
    ensures FirstsInOrder(topic, all)
  {
    forall p: nat, j: nat ensures FirstOk(topic, all, p, j) {
      if p < |topic| && 0 < j < |all| && topic[p] == all[j] {
        assert Known(topic, ids, p) && FirstOk(topic, ids, p, j);
        var i :| 0 <= i < |ids| && ids[i] == topic[p];
        assert all[i] == all[j];
      }
    }
  }

  lemma GrowLasts(topic: seq<nat>, ids: seq<nat>, all: seq<nat>, marked: nat)
    requires LastsInOrder(topic, ids, marked) && ids <= all && marked <= |ids|
    ensures LastsInOrder(topic, all, marked)
  {
    forall i: nat, j: nat, p: nat | j < marked ensures LastOk(topic, all, i, j, p) {
      assert LastOk(topic, ids, i, j, p);
    }
  }

  /** New rows have later ids. */
  lemma GrowKeeps(topic: seq<nat>, ids: seq<nat>, all: seq<nat>, marked: nat)
    requires TopicOk(topic, ids, marked) && ids <= all && Ascending(all)
    ensures TopicOk(topic, all, marked)
  {
    GrowFirsts(topic, ids, all);
    GrowLasts(topic, ids, all, marked);
    forall p: nat ensures Known(topic, all, p) {
      assert Known(topic, ids, p);
      if p < |topic| {
        var i :| 0 <= i < |ids| && ids[i] == topic[p];
        assert all[i] == topic[p];
      }
    }
  }

  /** The relay is `sent` records into the part of its batch that belongs to the order. */
  ghost predicate Sending(topic: seq<nat>, ids: seq<nat>, marked: nat, batch: seq<nat>, sent: nat) {
    && sent <= |batch| && marked + |batch| <= |ids| && batch == ids[marked..marked + |batch|]
    && sent <= |topic| && topic[|topic| - sent..] == batch[..sent]
  }

  lemma SendFirsts(topic: seq<nat>, ids: seq<nat>, n: nat)
    requires FirstsInOrder(topic, ids) && Ascending(ids) && n < |ids| && (n > 0 ==> ids[n - 1] in topic)
    ensures FirstsInOrder(topic + [ids[n]], ids)
  {
    var topic' := topic + [ids[n]];
    forall p: nat, j: nat ensures FirstOk(topic', ids, p, j) {
      if p < |topic'| && 0 < j < |ids| && topic'[p] == ids[j] {
        if p < |topic| {
          assert FirstOk(topic, ids, p, j);
          var q :| 0 <= q < p && q < |topic| && topic[q] == ids[j - 1];
          assert topic'[q] == ids[j - 1];
        } else {
          assert j == n;
          var q :| 0 <= q < |topic| && topic[q] == ids[n - 1];
          assert topic'[q] == ids[n - 1];
        }
      }
    }
  }

  lemma SendLasts(topic: seq<nat>, ids: seq<nat>, marked: nat, n: nat)
    requires LastsInOrder(topic, ids, marked) && Ascending(ids) && marked <= n < |ids|
    ensures LastsInOrder(topic + [ids[n]], ids, marked)
  {
    var topic' := topic + [ids[n]];
    forall i: nat, j: nat, p: nat | j < marked ensures LastOk(topic', ids, i, j, p) {
      assert LastOk(topic, ids, i, j, p);
      if i < j < |ids| && p < |topic'| && topic'[p] == ids[i] {
        var q :| p < q < |topic| && topic[q] == ids[j];
        assert topic'[q] == ids[j];
      }
    }
  }

  lemma SendKeeps(topic: seq<nat>, ids: seq<nat>, marked: nat, batch: seq<nat>, sent: nat)
    requires TopicOk(topic, ids, marked) && Sending(topic, ids, marked, batch, sent) && sent < |batch|
    ensures TopicOk(topic + [batch[sent]], ids, marked)
    ensures Sending(topic + [batch[sent]], ids, marked, batch, sent + 1)
  {
    var topic' := topic + [batch[sent]];
    var n := marked + sent;
    assert batch[sent] == ids[n];
    if n > 0 { PreviousIsThere(topic, ids, marked, batch, sent); }
    SendFirsts(topic, ids, n);
    SendLasts(topic, ids, marked, n);
    forall i | 0 <= i < marked ensures ids[i] in topic' { assert ids[i] in topic; }
    forall p: nat ensures Known(topic', ids, p) { assert Known(topic, ids, p); }
  }

  lemma PreviousIsThere(topic: seq<nat>, ids: seq<nat>, marked: nat, batch: seq<nat>, sent: nat)
    requires TopicOk(topic, ids, marked) && Sending(topic, ids, marked, batch, sent) && sent < |batch| && marked + sent > 0
    ensures ids[marked + sent - 1] in topic
  {
    if sent > 0 {
      assert topic[|topic| - sent..][sent - 1] == batch[sent - 1] == ids[marked + sent - 1];
    }
  }

  /** Position `p` of the last copies is row `p - d`. */
  lemma TailRow(topic: seq<nat>, ids: seq<nat>, marked: nat, batch: seq<nat>, p: nat)
    requires Sending(topic, ids, marked, batch, |batch|) && |topic| - |batch| <= p < |topic|
    ensures topic[p] == ids[p - (|topic| - |batch| - marked)]
  {
  }

  lemma MarkLasts(topic: seq<nat>, ids: seq<nat>, marked: nat, batch: seq<nat>, i: nat, j: nat, p: nat)
    requires TopicOk(topic, ids, marked) && Sending(topic, ids, marked, batch, |batch|)
    requires i < j < marked + |batch| && p < |topic| && topic[p] == ids[i]
    ensures AfterIt(topic, ids[j], p)
  {
    if j < marked {
      assert LastOk(topic, ids, i, j, p);
    } else {
      var d := |topic| - |batch| - marked;
      TailRow(topic, ids, marked, batch, j + d);
      if p >= |topic| - |batch| {
        TailRow(topic, ids, marked, batch, p);
        assert ids[i] == ids[p - d];
      }
      assert p < j + d && topic[j + d] == ids[j];
    }
  }

  /** Once the whole batch is out and marked, its copies are the last ones of its rows. */
  lemma MarkKeeps(topic: seq<nat>, ids: seq<nat>, marked: nat, batch: seq<nat>)
    requires TopicOk(topic, ids, marked) && Sending(topic, ids, marked, batch, |batch|)
    ensures TopicOk(topic, ids, marked + |batch|)
  {
    forall i | 0 <= i < marked + |batch| ensures ids[i] in topic {
      if i >= marked { TailRow(topic, ids, marked, batch, i + (|topic| - |batch| - marked)); }
    }
    forall i: nat, j: nat, p: nat | j < marked + |batch| ensures LastOk(topic, ids, i, j, p) {
      if i < j && p < |topic| && topic[p] == ids[i] { MarkLasts(topic, ids, marked, batch, i, j, p); }
    }
  }

  /** When everything is marked the last record is the last row. */
  lemma DrainedEndsWithLast(topic: seq<nat>, ids: seq<nat>)
    requires TopicOk(topic, ids, |ids|) && ids != []
    ensures topic != [] && topic[|topic| - 1] == ids[|ids| - 1]
  {
    assert ids[0] in topic;
    assert Known(topic, ids, |topic| - 1);
    var i :| 0 <= i < |ids| && ids[i] == topic[|topic| - 1];
    assert LastOk(topic, ids, i, |ids| - 1, |topic| - 1);
  }

  lemma FirstIsFirst(topic: seq<nat>, ids: seq<nat>, marked: nat)
    requires TopicOk(topic, ids, marked) && topic != []
    ensures ids != [] && topic[0] == ids[0]
  {
    assert Known(topic, ids, 0);
    var j :| 0 <= j < |ids| && ids[j] == topic[0];
    assert FirstOk(topic, ids, 0, j);
  }

  // ---- in terms of first and last copies ----

  predicate IsFirst(topic: seq<nat>, p: nat, id: nat) {
    p < |topic| && topic[p] == id && forall q | 0 <= q < p :: topic[q] != id
  }

  predicate IsLast(topic: seq<nat>, p: nat, id: nat) {
    p < |topic| && topic[p] == id && forall q | p < q < |topic| :: topic[q] != id
  }

  /** Rows first appear in outbox order. */
  lemma {:induction false} FirstCopiesInOrder(topic: seq<nat>, ids: seq<nat>, marked: nat, i: nat, j: nat, p: nat, q: nat)
    requires TopicOk(topic, ids, marked) && i < j < |ids| && IsFirst(topic, p, ids[i]) && q < |topic| && topic[q] == ids[j]
    ensures p < q
    decreases j
  {
    assert FirstOk(topic, ids, q, j);
    var r :| 0 <= r < q && topic[r] == ids[j - 1];
    if i < j - 1 { FirstCopiesInOrder(topic, ids, marked, i, j - 1, p, r); }
  }

  /** The last copy of an earlier marked row precedes the last copy of a later one. */
  lemma LastCopiesInOrder(topic: seq<nat>, ids: seq<nat>, marked: nat, i: nat, j: nat, p: nat, q: nat)
    requires TopicOk(topic, ids, marked) && i < j < marked && IsLast(topic, p, ids[i]) && IsLast(topic, q, ids[j])
    ensures p < q
  {
    assert LastOk(topic, ids, i, j, p);
  }
}
