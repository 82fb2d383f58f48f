/**
 * The outbox collection of inbound-outbox/src/lib.rs.
 *
 * The MongoDB collection is a map from `_id` to the stored document, held by the class
 * `Outbox` and updated in place. Whether a round trip to the database succeeds is a
 * parameter of each operation; a failed write leaves the map as it was.
 *
 * The per-entry delivery loop is shared by `retry_pending_entries` here and by the poll
 * task of inbound-outbox/src/main.rs; they differ only in the status text they write
 * after a successful send. Kafka's `send_event` is an oracle: `sendOk(k)` is the outcome
 * of sending the `k`-th entry of the fetched list, `updateOk(k)` that of its status update.
 */
module Outbox {
  import opened Types
  import Decimal

  /** A MongoDB `ObjectId`, generated by the store on insert. */
  type ObjectId = nat

  /** `Utc::now()` at insertion; never inspected. */
  type Timestamp = int

  const PENDING: string := "pending"

  /** What `mark_sent` writes: "sent" followed by a space. */
  const MARK_SENT_STATUS: string := "sent "

  /** A stored document without its `_id`. */
  datatype Document = Document(userId: u64, payload: string, status: string, createdAt: Timestamp)

  /** `OutboxEntry` as read back: `id` is an `Option` in the Rust struct. */
  datatype OutboxEntry = OutboxEntry(id: Option<ObjectId>, userId: u64, payload: string, status: string, createdAt: Timestamp)

  function EntryOf(id: ObjectId, d: Document): OutboxEntry {
    OutboxEntry(Some(id), d.userId, d.payload, d.status, d.createdAt)
  }

  /** The Kafka key of an entry: `entry.user_id.to_string()`. */
  function KeyOf(e: OutboxEntry): string {
    Decimal.DecimalString(e.userId as nat)
  }

  /**
   * `update_one({_id: id}, {$set: {status: status}})` on a map of documents: the matched
   * document gets the new status; no document matching is not an error and changes nothing.
   */
  function WithStatus(docs: map<ObjectId, Document>, id: ObjectId, status: string): (r: map<ObjectId, Document>)
    ensures r.Keys == docs.Keys
    ensures id in docs ==> r[id].status == status && r[id] == docs[id].(status := status)
    ensures forall other :: other in docs && other != id ==> r[other] == docs[other]
  {
    if id in docs then docs[id := docs[id].(status := status)] else docs
  }

  ghost function PendingIds(docs: map<ObjectId, Document>): set<ObjectId> {
    set id | id in docs && docs[id].status == PENDING
  }

  /**
   * `list` is a possible answer of `find({status: "pending"})`: every pending document
   * exactly once, as stored, in some order.
   */
  ghost predicate IsPendingListing(docs: map<ObjectId, Document>, list: seq<OutboxEntry>) {
    && (forall k :: 0 <= k < |list| ==>
          && list[k].id.Some? && list[k].id.value in docs
          && list[k] == EntryOf(list[k].id.value, docs[list[k].id.value])
          && list[k].status == PENDING)
    && (forall k, l :: 0 <= k < l < |list| ==> list[k].id != list[l].id)
    && (forall id :: id in PendingIds(docs) ==> exists k :: 0 <= k < |list| && list[k].id == Some(id))
  }

  /** Overwriting a status twice with the same text is the same as once (`mark_sent` is idempotent). */
  lemma WithStatusIdempotent(docs: map<ObjectId, Document>, id: ObjectId, status: string)
    ensures WithStatus(WithStatus(docs, id, status), id, status) == WithStatus(docs, id, status)
  {
  }

  /** Once an entry's status is overwritten with anything but "pending", the pending query no longer finds it. */
  lemma {:induction false} WithStatusLeavesPending(docs: map<ObjectId, Document>, id: ObjectId, status: string)
    requires status != PENDING
    ensures PendingIds(WithStatus(docs, id, status)) == PendingIds(docs) - {id}
  {
    var after := WithStatus(docs, id, status);
    forall x | x in PendingIds(after) ensures x in PendingIds(docs) - {id} {
      assert x in after && after[x].status == PENDING;
    }
    forall x | x in PendingIds(docs) - {id} ensures x in PendingIds(after) {
      assert after[x] == docs[x];
    }
  }

  /** After `mark_sent(id)` succeeds, no answer of the pending query contains that entry. */
  lemma MarkedNotRefetched(docs: map<ObjectId, Document>, id: ObjectId, list: seq<OutboxEntry>)
    requires IsPendingListing(WithStatus(docs, id, MARK_SENT_STATUS), list)
    ensures forall k :: 0 <= k < |list| ==> list[k].id != Some(id)
  {
  }

  /** One step of a delivery pass, as it shows in the log of what the pass did. */
  datatype Action =
    | Publish(entry: nat, key: string, payload: string, ok: bool)
    | Update(entry: nat, id: ObjectId, status: string, ok: bool)

  /**
   * What the pass does for the `k`-th fetched entry: send it; if that worked and the
   * entry carries an id, write `status` to it.
   */
  function EntryActions(k: nat, e: OutboxEntry, status: string, sendOk: bool, updateOk: bool): seq<Action> {
    [Publish(k, KeyOf(e), e.payload, sendOk)]
    + (if sendOk && e.id.Some? then [Update(k, e.id.value, status, updateOk)] else [])
  }

  /** The actions of a pass over the first `n` fetched entries. */
  function PassActions(entries: seq<OutboxEntry>, n: nat, status: string, sendOk: nat -> bool, updateOk: nat -> bool): seq<Action>
    requires n <= |entries|
  {
    if n == 0 then []
    else PassActions(entries, n - 1, status, sendOk, updateOk)
         + EntryActions(n - 1, entries[n - 1], status, sendOk(n - 1), updateOk(n - 1))
  }

  /** Every status update in `t` comes right after a successful send of the same entry. */
  ghost predicate UpdatesFollowSends(t: seq<Action>) {
    forall j :: 0 <= j < |t| && t[j].Update? ==>
      0 < j && t[j - 1].Publish? && t[j - 1].entry == t[j].entry && t[j - 1].ok
  }

  /** The messages a log sends, in order, whatever their outcome. */
  function Sent(t: seq<Action>): seq<(string, string)> {
    if t == [] then []
    else Sent(t[..|t| - 1]) + (if t[|t| - 1].Publish? then [(t[|t| - 1].key, t[|t| - 1].payload)] else [])
  }

  /** The entries of a log that received a status update, with the id and status written. */
  function Updated(t: seq<Action>): set<(nat, ObjectId, string)> {
    set j | 0 <= j < |t| && t[j].Update? :: (t[j].entry, t[j].id, t[j].status)
  }

  /** The messages of the first `n` entries: key from the user id, payload as stored. */
  function Messages(entries: seq<OutboxEntry>, n: nat): (m: seq<(string, string)>)
    requires n <= |entries|
    ensures |m| == n
    ensures forall k :: 0 <= k < n ==> m[k] == (KeyOf(entries[k]), entries[k].payload)
  {
    if n == 0 then [] else Messages(entries, n - 1) + [(KeyOf(entries[n - 1]), entries[n - 1].payload)]
  }

  lemma SentAppend(t: seq<Action>, u: seq<Action>)
    ensures Sent(t + u) == Sent(t) + Sent(u)
    decreases |u|
  {
    if u == [] {
      assert t + u == t;
    } else {
      assert (t + u)[..|t + u| - 1] == t + u[..|u| - 1];
      SentAppend(t, u[..|u| - 1]);
    }
  }

  /** A pass sends every fetched entry exactly once, in fetch order, keyed by the decimal user id and carrying the stored payload. */
  lemma {:induction false} PassSendsEachEntry(entries: seq<OutboxEntry>, n: nat, status: string, sendOk: nat -> bool, updateOk: nat -> bool)
    requires n <= |entries|
    ensures Sent(PassActions(entries, n, status, sendOk, updateOk)) == Messages(entries, n)
  {
    if n > 0 {
      var t := PassActions(entries, n - 1, status, sendOk, updateOk);
      var e := entries[n - 1];
      var u := EntryActions(n - 1, e, status, sendOk(n - 1), updateOk(n - 1));
      PassSendsEachEntry(entries, n - 1, status, sendOk, updateOk);
      SentAppend(t, u);
      assert Sent(u) == [(KeyOf(e), e.payload)] by {
        var p := [u[0]];
        var rest := u[1..];
        assert u == p + rest;
        SentAppend(p, rest);
        assert p[..0] == [];
        if rest != [] {
          assert rest[..0] == [] && rest == [rest[0]] && rest[0].Update?;
        }
      }
    }
  }

  /** A pass writes a status only right after a successful send of that same entry. */
  lemma {:induction false} PassUpdatesFollowSends(entries: seq<OutboxEntry>, n: nat, status: string, sendOk: nat -> bool, updateOk: nat -> bool)
    requires n <= |entries|
    ensures UpdatesFollowSends(PassActions(entries, n, status, sendOk, updateOk))
  {
    if n > 0 {
      var t := PassActions(entries, n - 1, status, sendOk, updateOk);
      var u := EntryActions(n - 1, entries[n - 1], status, sendOk(n - 1), updateOk(n - 1));
      PassUpdatesFollowSends(entries, n - 1, status, sendOk, updateOk);
      var tu := t + u;
      forall j | 0 <= j < |tu| && tu[j].Update?
        ensures 0 < j && tu[j - 1].Publish? && tu[j - 1].entry == tu[j].entry && tu[j - 1].ok
      {
        if j >= |t| {
          assert j == |t| + 1 && tu[j - 1] == u[0];
        } else {
          assert tu[j] == t[j] && tu[j - 1] == t[j - 1];
        }
      }
    }
  }

  lemma UpdatedAppend(t: seq<Action>, u: seq<Action>)
    ensures Updated(t + u) == Updated(t) + Updated(u)
  {
    var tu := t + u;
    forall x | x in Updated(tu) ensures x in Updated(t) + Updated(u) {
      var j :| 0 <= j < |tu| && tu[j].Update? && x == (tu[j].entry, tu[j].id, tu[j].status);
      if j < |t| { assert tu[j] == t[j]; } else { assert tu[j] == u[j - |t|]; }
    }
    forall x | x in Updated(t) ensures x in Updated(tu) {
      var j :| 0 <= j < |t| && t[j].Update? && x == (t[j].entry, t[j].id, t[j].status);
      assert tu[j] == t[j];
    }
    forall x | x in Updated(u) ensures x in Updated(tu) {
      var j :| 0 <= j < |u| && u[j].Update? && x == (u[j].entry, u[j].id, u[j].status);
      assert tu[|t| + j] == u[j];
    }
  }

  /**
   * A pass writes `status` to exactly the fetched entries whose send succeeded and which
   * carry an id; an entry without an id is sent but never marked.
   */
  lemma {:induction false} PassUpdatesExactlySent(entries: seq<OutboxEntry>, n: nat, status: string, sendOk: nat -> bool, updateOk: nat -> bool)
    requires n <= |entries|
    ensures Updated(PassActions(entries, n, status, sendOk, updateOk))
         == set k | 0 <= k < n && sendOk(k) && entries[k].id.Some? :: (k, entries[k].id.value, status)
  {
    if n > 0 {
      var t := PassActions(entries, n - 1, status, sendOk, updateOk);
      var e := entries[n - 1];
      var u := EntryActions(n - 1, e, status, sendOk(n - 1), updateOk(n - 1));
      PassUpdatesExactlySent(entries, n - 1, status, sendOk, updateOk);
      UpdatedAppend(t, u);
      var before := set k | 0 <= k < n - 1 && sendOk(k) && entries[k].id.Some? :: (k, entries[k].id.value, status);
      var after := set k | 0 <= k < n && sendOk(k) && entries[k].id.Some? :: (k, entries[k].id.value, status);
      if sendOk(n - 1) && e.id.Some? {
        assert Updated(u) == {(n - 1, e.id.value, status)} by {
          assert u[1] == Update(n - 1, e.id.value, status, updateOk(n - 1));
        }
        assert after == before + {(n - 1, e.id.value, status)};
      } else {
        assert Updated(u) == {};
        assert after == before;
      }
    }
  }

  /** Some entry among the first `n` fetched carries `id`, was sent, and had its status written. */
  ghost predicate MarkedBy(entries: seq<OutboxEntry>, n: nat, id: ObjectId, sendOk: nat -> bool, updateOk: nat -> bool) {
    exists k :: 0 <= k < n && k < |entries| && entries[k].id == Some(id) && sendOk(k) && updateOk(k)
  }

  /** The collection after a pass over the first `n` fetched entries. */
  ghost function Delivered(docs: map<ObjectId, Document>, entries: seq<OutboxEntry>, n: nat, status: string,
                           sendOk: nat -> bool, updateOk: nat -> bool): map<ObjectId, Document>
  {
    map id | id in docs :: if MarkedBy(entries, n, id, sendOk, updateOk) then docs[id].(status := status) else docs[id]
  }

  /** Taking one more entry into a pass applies exactly that entry's status write, if any. */
  lemma DeliveredStep(docs: map<ObjectId, Document>, entries: seq<OutboxEntry>, n: nat, status: string,
                      sendOk: nat -> bool, updateOk: nat -> bool)
    requires n < |entries|
    ensures Delivered(docs, entries, n + 1, status, sendOk, updateOk)
         == if sendOk(n) && updateOk(n) && entries[n].id.Some?
            then WithStatus(Delivered(docs, entries, n, status, sendOk, updateOk), entries[n].id.value, status)
            else Delivered(docs, entries, n, status, sendOk, updateOk)
  {
    var before := Delivered(docs, entries, n, status, sendOk, updateOk);
    var after := Delivered(docs, entries, n + 1, status, sendOk, updateOk);
    var writes := sendOk(n) && updateOk(n) && entries[n].id.Some?;
    var expected := if writes then WithStatus(before, entries[n].id.value, status) else before;
    forall id | id in docs ensures after[id] == expected[id] {
      if writes && entries[n].id == Some(id) {
        assert MarkedBy(entries, n + 1, id, sendOk, updateOk);
      } else if MarkedBy(entries, n + 1, id, sendOk, updateOk) {
        var k :| 0 <= k < n + 1 && k < |entries| && entries[k].id == Some(id) && sendOk(k) && updateOk(k);
        assert k < n;
        assert MarkedBy(entries, n, id, sendOk, updateOk);
      }
    }
  }

  /**
   * After a pass that writes a non-pending status, an entry is still pending exactly when it
   * was pending before and no fetched copy of it was both sent and updated.
   */
  lemma PassPending(docs: map<ObjectId, Document>, entries: seq<OutboxEntry>, status: string,
                    sendOk: nat -> bool, updateOk: nat -> bool)
    requires status != PENDING
    ensures forall id :: id in PendingIds(Delivered(docs, entries, |entries|, status, sendOk, updateOk))
                     <==> id in PendingIds(docs) && !MarkedBy(entries, |entries|, id, sendOk, updateOk)
  {
  }

  /**
   * A pending entry whose send failed is still pending after the pass, so the next fetch
   * returns it again: no entry is lost when Kafka is down.
   */
  lemma {:induction false} FailedSendRefetched(docs: map<ObjectId, Document>, entries: seq<OutboxEntry>, k: nat, status: string,
                                              sendOk: nat -> bool, updateOk: nat -> bool, next: seq<OutboxEntry>)
    requires IsPendingListing(docs, entries)
    requires k < |entries| && !sendOk(k)
    requires IsPendingListing(Delivered(docs, entries, |entries|, status, sendOk, updateOk), next)
    ensures exists l :: 0 <= l < |next| && next[l].id == entries[k].id
  {
    var id := entries[k].id.value;
    var after := Delivered(docs, entries, |entries|, status, sendOk, updateOk);
    if MarkedBy(entries, |entries|, id, sendOk, updateOk) {
      assert false;
    }
    assert id in PendingIds(after);
  }

  /** `OutboxEntry` as stored in the collection: a map from id to document. */
  class Outbox {
    var docs: map<ObjectId, Document>
    /** Ids handed out so far are below this counter; stands for `ObjectId` generation. */
    var nextId: ObjectId

    ghost predicate Valid()
      reads this
    {
      forall id :: id in docs ==> id < nextId
    }

    constructor ()
      ensures Valid() && docs == map[]
    {
      docs := map[];
      nextId := 0;
    }

    /** `add_entry`: insert a pending document and return its fresh id. */
    method AddEntry(userId: u64, payload: string, now: Timestamp, storageUp: bool) returns (r: Result<ObjectId, DbError>)
      requires Valid()
      modifies this
      ensures Valid()
      ensures r.Ok? <==> storageUp
      ensures r.Ok? ==> r.value !in old(docs) && docs == old(docs)[r.value := Document(userId, payload, PENDING, now)]
      ensures r.Err? ==> docs == old(docs)
    {
      if !storageUp {
        return Err(DbError);
      }
      var id := nextId;
      docs := docs[id := Document(userId, payload, PENDING, now)];
      nextId := nextId + 1;
      r := Ok(id);
    }

    /** `collection.update_one({_id: id}, {$set: {status: status}})`. */
    method UpdateStatus(id: ObjectId, status: string, storageUp: bool) returns (r: Result<(), DbError>)
      requires Valid()
      modifies this
      ensures Valid() && nextId == old(nextId)
      ensures r.Ok? <==> storageUp
      ensures docs == if storageUp then WithStatus(old(docs), id, status) else old(docs)
    {
      if !storageUp {
        return Err(DbError);
      }
      docs := WithStatus(docs, id, status);
      r := Ok(());
    }

    /** `mark_sent`: overwrite the status with "sent " whatever it was. */
    method MarkSent(id: ObjectId, storageUp: bool) returns (r: Result<(), DbError>)
      requires Valid()
      modifies this
      ensures Valid() && nextId == old(nextId)
      ensures r.Ok? <==> storageUp
      ensures docs == if storageUp then WithStatus(old(docs), id, MARK_SENT_STATUS) else old(docs)
    {
      r := UpdateStatus(id, MARK_SENT_STATUS, storageUp);
    }

    /** `fetch_pending_entries`: collect the cursor over `{status: "pending"}`, in the order the store picks. */
    method FetchPendingEntries(storageUp: bool) returns (r: Result<seq<OutboxEntry>, DbError>)
      ensures r.Ok? <==> storageUp
      ensures r.Ok? ==> IsPendingListing(docs, r.value)
    {
      if !storageUp {
        return Err(DbError);
      }
      var unseen := docs.Keys;
      var found: seq<OutboxEntry> := [];
      while unseen != {}
        invariant unseen <= docs.Keys
        invariant forall k :: 0 <= k < |found| ==>
          && found[k].id.Some? && found[k].id.value in docs.Keys - unseen
          && found[k] == EntryOf(found[k].id.value, docs[found[k].id.value])
          && found[k].status == PENDING
        invariant forall k, l :: 0 <= k < l < |found| ==> found[k].id != found[l].id
        invariant forall id :: id in PendingIds(docs) && id !in unseen ==> exists k :: 0 <= k < |found| && found[k].id == Some(id)
        decreases unseen
      {
        var id :| id in unseen;
        ghost var before := found;
        if docs[id].status == PENDING {
          found := found + [EntryOf(id, docs[id])];
        }
        unseen := unseen - {id};
        forall x | x in PendingIds(docs) && x !in unseen
          ensures exists k :: 0 <= k < |found| && found[k].id == Some(x)
        {
          if x == id {
            assert found[|found| - 1].id == Some(x);
          } else {
            var k :| 0 <= k < |before| && before[k].id == Some(x);
            assert found[k] == before[k];
          }
        }
      }
      r := Ok(found);
    }
  }

  /**
   * The body of the `for entry in pending_entries` loop: send each entry and, when the send
   * worked and the entry has an id, write `status` to it; a failed write is only logged.
   * The retry pass gives `MARK_SENT_STATUS`, so its status write is `Outbox.MarkSent`'s
   * update (both are `WithStatus(docs, id, MARK_SENT_STATUS)` on success); the poll task
   * of the relay's `main` gives `"sent"`.
   */
  method DeliverEach(outbox: Outbox, entries: seq<OutboxEntry>, status: string, sendOk: nat -> bool, updateOk: nat -> bool)
    returns (log: seq<Action>)
    requires outbox.Valid()
    modifies outbox
    ensures outbox.Valid() && outbox.nextId == old(outbox.nextId)
    ensures outbox.docs == Delivered(old(outbox.docs), entries, |entries|, status, sendOk, updateOk)
    ensures log == PassActions(entries, |entries|, status, sendOk, updateOk)
  {
    var i := 0;
    log := [];
    while i < |entries|
      invariant i <= |entries|
      invariant outbox.Valid() && outbox.nextId == old(outbox.nextId)
      invariant outbox.docs == Delivered(old(outbox.docs), entries, i, status, sendOk, updateOk)
      invariant log == PassActions(entries, i, status, sendOk, updateOk)
    {
      var entry := entries[i];
      var sent := sendOk(i);
      log := log + [Publish(i, KeyOf(entry), entry.payload, sent)];
      if sent && entry.id.Some? {
        var written := outbox.UpdateStatus(entry.id.value, status, updateOk(i));
        log := log + [Update(i, entry.id.value, status, written.Ok?)];
      }
      DeliveredStep(old(outbox.docs), entries, i, status, sendOk, updateOk);
      i := i + 1;
    }
  }

  /**
   * One tick of `retry_pending_entries`: fetch the pending entries (a failed fetch skips the
   * tick), then send each one and `mark_sent` it when the send worked.
   */
  method RetryPendingPass(outbox: Outbox, fetchOk: bool, sendOk: nat -> bool, updateOk: nat -> bool)
    returns (fetched: Result<seq<OutboxEntry>, DbError>, log: seq<Action>)
    requires outbox.Valid()
    modifies outbox
    ensures outbox.Valid()
    ensures fetched.Ok? <==> fetchOk
    ensures fetched.Err? ==> log == [] && outbox.docs == old(outbox.docs)
    ensures fetched.Ok? ==>
      && IsPendingListing(old(outbox.docs), fetched.value)
      && log == PassActions(fetched.value, |fetched.value|, MARK_SENT_STATUS, sendOk, updateOk)
      && outbox.docs == Delivered(old(outbox.docs), fetched.value, |fetched.value|, MARK_SENT_STATUS, sendOk, updateOk)
  {
    log := [];
    fetched := outbox.FetchPendingEntries(fetchOk);
    if fetched.Err? {
      return;
    }
    if fetched.value == [] {
      return;
    }
    log := DeliverEach(outbox, fetched.value, MARK_SENT_STATUS, sendOk, updateOk);
  }
}
