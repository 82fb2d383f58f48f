/**
 * The two triggers of inbound-outbox/src/main.rs over the outbox collection: the poll task
 * (every ten seconds: fetch the pending entries, send each, write "sent") and the loop over
 * the collection's change stream (send every notified document whose status is "pending",
 * write "sent"). Neither claims an entry before sending it, so both may send the same one.
 *
 * Ticks, task spawning and the stream connection are left out; an interleaving of the two
 * tasks is an explicit order of the steps below. `sendOk(k)` and `updateOk(k)` are the
 * outcomes of the `k`-th send and status write of a pass or of the watch loop.
 */
module Reconciler {
  import opened Types
  import opened Outbox
  import Decimal

  /** What both tasks of main.rs write after a successful send (no trailing space). */
  const SENT: string := "sent"

  /** The `full_document` of a change event, as deserialised into main.rs's own `OutboxEntry`. */
  datatype ChangeDocument = ChangeDocument(id: ObjectId, userId: u64, payload: string, status: string)

  /** One item of the change stream: an error, or an event that may carry the full document. */
  datatype ChangeEvent =
    | StreamError
    | Change(fullDocument: Option<ChangeDocument>)

  /** The event carries a full document whose status is exactly "pending". */
  predicate Triggers(ev: ChangeEvent) {
    ev.Change? && ev.fullDocument.Some? && ev.fullDocument.value.status == PENDING
  }

  /** What the change handler does for the `k`-th event. */
  function ChangeActions(k: nat, ev: ChangeEvent, sendOk: bool, updateOk: bool): seq<Action> {
    if !Triggers(ev) then []
    else
      var d := ev.fullDocument.value;
      [Publish(k, Decimal.DecimalString(d.userId as nat), d.payload, sendOk)]
      + (if sendOk then [Update(k, d.id, SENT, updateOk)] else [])
  }

  /** The collection after the change handler ran on one event. */
  function ChangeStore(docs: map<ObjectId, Document>, ev: ChangeEvent, sendOk: bool, updateOk: bool): map<ObjectId, Document> {
    if Triggers(ev) && sendOk && updateOk then WithStatus(docs, ev.fullDocument.value.id, SENT) else docs
  }

  /** The event ends the watch loop: its send worked but the status write failed (the `?`). */
  predicate Fatal(ev: ChangeEvent, sendOk: bool, updateOk: bool) {
    Triggers(ev) && sendOk && !updateOk
  }

  /** The actions of the watch loop over the first `n` events. */
  function WatchActions(events: seq<ChangeEvent>, n: nat, sendOk: nat -> bool, updateOk: nat -> bool): seq<Action>
    requires n <= |events|
  {
    if n == 0 then []
    else WatchActions(events, n - 1, sendOk, updateOk) + ChangeActions(n - 1, events[n - 1], sendOk(n - 1), updateOk(n - 1))
  }

  /** The collection after the watch loop handled the first `n` events. */
  function WatchStore(docs: map<ObjectId, Document>, events: seq<ChangeEvent>, n: nat, sendOk: nat -> bool, updateOk: nat -> bool): map<ObjectId, Document>
    requires n <= |events|
  {
    if n == 0 then docs
    else ChangeStore(WatchStore(docs, events, n - 1, sendOk, updateOk), events[n - 1], sendOk(n - 1), updateOk(n - 1))
  }

  /**
   * The poll task's body for one tick: fetch the pending entries (a failed fetch is logged
   * and the tick ends), then send each and write "sent" when the send worked.
   */
  method PollPass(outbox: Outbox, fetchOk: bool, sendOk: nat -> bool, updateOk: nat -> bool)
    returns (fetched: Result<seq<OutboxEntry>, DbError>, log: seq<Action>)
    requires outbox.Valid()
    modifies outbox
    ensures outbox.Valid()
    ensures fetched.Ok? <==> fetchOk
    ensures fetched.Err? ==> log == [] && outbox.docs == old(outbox.docs)
    ensures fetched.Ok? ==>
      && IsPendingListing(old(outbox.docs), fetched.value)
      && log == PassActions(fetched.value, |fetched.value|, SENT, sendOk, updateOk)
      && outbox.docs == Delivered(old(outbox.docs), fetched.value, |fetched.value|, SENT, sendOk, updateOk)
  {
    log := [];
    fetched := outbox.FetchPendingEntries(fetchOk);
    if fetched.Ok? {
      log := DeliverEach(outbox, fetched.value, SENT, sendOk, updateOk);
    }
  }

  /**
   * The body of `while let Some(change) = change_stream.next()` for one event: only a full
   * document with status "pending" is sent; a successful send is followed by writing
   * "sent", and a failed write is returned as the error that ends `main`.
   */
  method HandleChange(outbox: Outbox, k: nat, ev: ChangeEvent, sendOk: bool, updateOk: bool)
    returns (r: Result<(), DbError>, actions: seq<Action>)
    requires outbox.Valid()
    modifies outbox
    ensures outbox.Valid() && outbox.nextId == old(outbox.nextId)
    ensures r.Err? <==> Fatal(ev, sendOk, updateOk)
    ensures actions == ChangeActions(k, ev, sendOk, updateOk)
    ensures outbox.docs == ChangeStore(old(outbox.docs), ev, sendOk, updateOk)
  {
    r, actions := Ok(()), [];
    if ev.StreamError? || ev.fullDocument.None? {
      return;
    }
    var doc := ev.fullDocument.value;
    if doc.status == PENDING {
      actions := [Publish(k, Decimal.DecimalString(doc.userId as nat), doc.payload, sendOk)];
      if sendOk {
        var written := outbox.UpdateStatus(doc.id, SENT, updateOk);
        actions := actions + [Update(k, doc.id, SENT, written.Ok?)];
        if written.Err? {
          r := Err(DbError);
        }
      }
    }
  }

  /**
   * The change-stream loop over a finite stream: handle the events in order and stop at the
   * first failed status write. `consumed` is the number of events taken.
   */
  method WatchChanges(outbox: Outbox, events: seq<ChangeEvent>, sendOk: nat -> bool, updateOk: nat -> bool)
    returns (r: Result<(), DbError>, consumed: nat, log: seq<Action>)
    requires outbox.Valid()
    modifies outbox
    ensures outbox.Valid()
    ensures consumed <= |events|
    ensures r.Ok? ==> consumed == |events|
    ensures r.Err? <==> 0 < consumed && Fatal(events[consumed - 1], sendOk(consumed - 1), updateOk(consumed - 1))
    ensures forall k :: 0 <= k < consumed - 1 ==> !Fatal(events[k], sendOk(k), updateOk(k))
    ensures log == WatchActions(events, consumed, sendOk, updateOk)
    ensures outbox.docs == WatchStore(old(outbox.docs), events, consumed, sendOk, updateOk)
  {
    consumed, log, r := 0, [], Ok(());
    while consumed < |events|
      invariant consumed <= |events|
      invariant outbox.Valid()
      invariant forall k :: 0 <= k < consumed ==> !Fatal(events[k], sendOk(k), updateOk(k))
      invariant log == WatchActions(events, consumed, sendOk, updateOk)
      invariant outbox.docs == WatchStore(old(outbox.docs), events, consumed, sendOk, updateOk)
    {
      var step, actions := HandleChange(outbox, consumed, events[consumed], sendOk(consumed), updateOk(consumed));
      log := log + actions;
      consumed := consumed + 1;
      if step.Err? {
        r := step;
        return;
      }
    }
  }

  /**
   * The watch loop sends only notified documents whose status was "pending", keyed by the
   * decimal user id; it writes only "sent", and only right after a successful send of the
   * same document.
   */
  lemma {:induction false} WatchActsOnlyOnPending(events: seq<ChangeEvent>, n: nat, sendOk: nat -> bool, updateOk: nat -> bool)
    requires n <= |events|
    ensures UpdatesFollowSends(WatchActions(events, n, sendOk, updateOk))
    ensures forall a :: a in WatchActions(events, n, sendOk, updateOk) ==>
      && a.entry < n && Triggers(events[a.entry])
      && (a.Publish? ==> a.key == Decimal.DecimalString(events[a.entry].fullDocument.value.userId as nat)
                         && a.payload == events[a.entry].fullDocument.value.payload)
      && (a.Update? ==> a.status == SENT && a.id == events[a.entry].fullDocument.value.id)
  {
    if n > 0 {
      var t := WatchActions(events, n - 1, sendOk, updateOk);
      var u := ChangeActions(n - 1, events[n - 1], sendOk(n - 1), updateOk(n - 1));
      WatchActsOnlyOnPending(events, n - 1, sendOk, updateOk);
      var tu := t + u;
      forall j | 0 <= j < |tu| && tu[j].Update?
        ensures 0 < j && tu[j - 1].Publish? && tu[j - 1].entry == tu[j].entry && tu[j - 1].ok
      {
        if j >= |t| {
          assert j == |t| + 1 && tu[j - 1] == u[0];
        } else {
          assert tu[j] == t[j] && tu[j - 1] == t[j - 1];
        }
      }
    }
  }

  /**
   * The watch loop keeps every document and changes nothing but statuses, each of which
   * it leaves as it was or sets to "sent".
   */
  lemma {:induction false} WatchOnlyMarksSent(docs: map<ObjectId, Document>, events: seq<ChangeEvent>, n: nat, sendOk: nat -> bool, updateOk: nat -> bool)
    requires n <= |events|
    ensures WatchStore(docs, events, n, sendOk, updateOk).Keys == docs.Keys
    ensures forall id :: id in docs ==>
      WatchStore(docs, events, n, sendOk, updateOk)[id] in {docs[id], docs[id].(status := SENT)}
  {
    if n > 0 {
      WatchOnlyMarksSent(docs, events, n - 1, sendOk, updateOk);
    }
  }

  /**
   * `mark_sent` and the tasks of main.rs disagree on the text: a pass of
   * `retry_pending_entries` leaves "sent " where the poll task, given the same fetch and
   * the same outcomes, leaves "sent"; the messages both send are the same.
   */
  lemma MarkSentDisagreesWithPoll(docs: map<ObjectId, Document>, entries: seq<OutboxEntry>, id: ObjectId,
                                  sendOk: nat -> bool, updateOk: nat -> bool)
    requires id in docs && MarkedBy(entries, |entries|, id, sendOk, updateOk)
    ensures Delivered(docs, entries, |entries|, MARK_SENT_STATUS, sendOk, updateOk)[id].status == "sent "
    ensures Delivered(docs, entries, |entries|, SENT, sendOk, updateOk)[id].status == "sent"
    ensures Sent(PassActions(entries, |entries|, MARK_SENT_STATUS, sendOk, updateOk))
         == Sent(PassActions(entries, |entries|, SENT, sendOk, updateOk))
  {
    PassSendsEachEntry(entries, |entries|, MARK_SENT_STATUS, sendOk, updateOk);
    PassSendsEachEntry(entries, |entries|, SENT, sendOk, updateOk);
  }

  /**
   * Without a claim step, a pending entry that the poll task fetched and that the change
   * stream also reports as pending is sent by both, with the same key and payload; in
   * either order of the two steps the entry ends "sent" once either side's send and write
   * succeeded.
   */
  lemma {:induction false} PollAndChangeBothSend(docs: map<ObjectId, Document>, entries: seq<OutboxEntry>, k: nat, ev: ChangeEvent,
                                                sendOk: nat -> bool, updateOk: nat -> bool, changeSendOk: bool, changeUpdateOk: bool)
    requires IsPendingListing(docs, entries) && k < |entries|
    requires ev == Change(Some(ChangeDocument(entries[k].id.value, entries[k].userId, entries[k].payload, PENDING)))
    ensures var sent := Sent(PassActions(entries, |entries|, SENT, sendOk, updateOk));
      |sent| == |entries| && sent[k] == (KeyOf(entries[k]), entries[k].payload)
    ensures Sent(ChangeActions(0, ev, changeSendOk, changeUpdateOk)) == [(KeyOf(entries[k]), entries[k].payload)]
    ensures (sendOk(k) && updateOk(k)) || (changeSendOk && changeUpdateOk) ==>
      && ChangeStore(Delivered(docs, entries, |entries|, SENT, sendOk, updateOk), ev, changeSendOk, changeUpdateOk)[entries[k].id.value].status == SENT
      && Delivered(ChangeStore(docs, ev, changeSendOk, changeUpdateOk), entries, |entries|, SENT, sendOk, updateOk)[entries[k].id.value].status == SENT
  {
    PassSendsEachEntry(entries, |entries|, SENT, sendOk, updateOk);
    var u := ChangeActions(0, ev, changeSendOk, changeUpdateOk);
    var p := [u[0]];
    var rest := u[1..];
    assert u == p + rest;
    SentAppend(p, rest);
    assert p[..0] == [];
    if rest != [] {
      assert rest[..0] == [] && rest == [rest[0]] && rest[0].Update?;
    }
    var id := entries[k].id.value;
    if sendOk(k) && updateOk(k) {
      assert MarkedBy(entries, |entries|, id, sendOk, updateOk);
    }
  }

  /**
   * Scenario: user 42 appends "p1"; the poll task fetches it; the change stream's insert
   * notification is handled and marks it "sent"; the poll task then works through the
   * list it fetched earlier and sends the entry a second time.
   */
  method DuplicateSendScenario() returns (changeLog: seq<Action>, pollLog: seq<Action>, status: string)
    ensures Sent(changeLog) == [("42", "p1")]
    ensures ("42", "p1") in Sent(pollLog)
    ensures status == SENT
  {
    var outbox := new Outbox();
    var added := outbox.AddEntry(42, "p1", 0, true);
    var id := added.value;
    var inserted := outbox.docs;
    assert inserted == map[id := Document(42, "p1", PENDING, 0)];
    var fetched := outbox.FetchPendingEntries(true);
    var list := fetched.value;
    assert id in PendingIds(inserted);
    var k :| 0 <= k < |list| && list[k].id == Some(id);
    assert list[k] == EntryOf(id, inserted[id]);
    assert Decimal.DecimalString(42) == "42";
    var ev := Change(Some(ChangeDocument(id, 42, "p1", PENDING)));
    var _, changeActions := HandleChange(outbox, 0, ev, true, true);
    PollAndChangeBothSend(inserted, list, k, ev, _ => true, _ => true, true, true);
    changeLog := changeActions;
    pollLog := DeliverEach(outbox, list, SENT, _ => true, _ => true);
    assert Sent(pollLog)[k] == ("42", "p1");
    assert MarkedBy(list, |list|, id, _ => true, _ => true);
    status := outbox.docs[id].status;
  }
}
