/** What becomes of each queued complaint: stored, a recorded duplicate verdict, or the dead letter
  * (backend/src/realtime/complaintIntake.js, intakeWorker.js). */
module ComplaintVerdicts {
  import opened Common

  /** A submission: the qid minted for it, its external id if any, and everything else. */
  datatype Complaint = Complaint(qid: nat, ext: Option<nat>, content: nat)

  /** A stored complaint: the queue item that stored it, if any, and its incident, whose customers it was counted with unless
    * that is a planned outage. */
  datatype Row = Row(complaint: Complaint, item: Option<nat>, incident: nat, counted: bool)

  datatype Verdict = SameExternalId(existing: nat) | SameItem(existing: nat)

  datatype Reason = QidTaken(holder: Row, sameContent: bool) | Exhausted

  datatype Outcome = Fresh | Duplicate(verdict: Verdict) | Rejected(reason: Reason)

  /** Where the complaint belongs, as decided from the feeder, the category and the open incidents. */
  datatype Place = Opens(id: nat) | Merges(id: nat) | Planned(id: nat)

  /** The tables, then the rejections a worker found but has not yet dead-lettered; and, as history, all items ever enqueued
    * and those run again after they had left the queue. */
  datatype Tables = Tables(
    queue: map<nat, Complaint>, rows: seq<Row>, duplicates: map<nat, Verdict>, dead: map<nat, Reason>,
    customers: map<nat, nat>, rejected: map<nat, Reason>, enqueued: map<nat, Complaint>, again: set<nat>)

  datatype Event =
    | Enqueue(id: nat, c: Complaint)
    | Process(id: nat, at: Place)
    | DeadLetter(id: nat, reason: Reason)
    | Redeliver(id: nat, at: Place)
    | Direct(c: Complaint, at: Place)

  function Init(customers: map<nat, nat>): Tables { Tables(map[], [], map[], map[], customers, map[], map[], {}) }

  /** The row stored under a qid. */
  function ByQid(rows: seq<Row>, qid: nat): (r: Option<Row>)
    ensures r.Some? ==> r.value in rows && r.value.complaint.qid == qid
    ensures r.None? ==> forall k :: 0 <= k < |rows| ==> rows[k].complaint.qid != qid
  {
    if rows == [] then None else if rows[0].complaint.qid == qid then Some(rows[0]) else ByQid(rows[1..], qid)
  }

  /** The oldest row with an external id. */
  function ByExt(rows: seq<Row>, ext: nat): (r: Option<Row>)
    ensures r.Some? ==> r.value in rows && r.value.complaint.ext == Some(ext)
    ensures r.None? ==> forall k :: 0 <= k < |rows| ==> rows[k].complaint.ext != Some(ext)
  {
    if rows == [] then None else if rows[0].complaint.ext == Some(ext) then Some(rows[0]) else ByExt(rows[1..], ext)
  }

  /** Decided by the submission's own key: its external id first, then its queue item; a qid alone decides nothing. */
  function Decide(rows: seq<Row>, c: Complaint, item: Option<nat>): Outcome {
    var sent := if c.ext.Some? then ByExt(rows, c.ext.value) else None;
    var holder := ByQid(rows, c.qid);
    if sent.Some? then Duplicate(SameExternalId(sent.value.complaint.qid))
    else if holder.None? then Fresh
    else if item.Some? && holder.value.item == item then Duplicate(SameItem(c.qid))
    else Rejected(QidTaken(holder.value, holder.value.complaint.content == c.content))
  }

  predicate CanTake(customers: map<nat, nat>, at: Place) {
    match at
    case Opens(i) => i !in customers
    case Merges(i) => i in customers
    case Planned(i) => true
  }

  function RowFor(c: Complaint, item: Option<nat>, at: Place): Row { Row(c, item, at.id, !at.Planned?) }

  function Counted(customers: map<nat, nat>, at: Place): map<nat, nat>
    requires CanTake(customers, at)
  {
    match at
    case Opens(i) => customers[i := 1]
    case Merges(i) => customers[i := customers[i] + 1]
    case Planned(_) => customers
  }

  function Put(s: Tables, c: Complaint, item: Option<nat>, at: Place): Tables
    requires CanTake(s.customers, at)
  {
    s.(rows := s.rows + [RowFor(c, item, at)], customers := Counted(s.customers, at))
  }

  /** A verdict once recorded stays. */
  function Note(duplicates: map<nat, Verdict>, id: nat, v: Verdict): map<nat, Verdict> {
    if id in duplicates then duplicates else duplicates[id := v]
  }

  predicate Possible(s: Tables, e: Event) {
    match e
    case Enqueue(id, _) => id !in s.enqueued
    case Process(id, at) => id in s.queue && CanTake(s.customers, at)
    case DeadLetter(id, reason) => id in s.queue && (reason == Exhausted || (id in s.rejected && s.rejected[id] == reason))
    case Redeliver(id, at) => id in s.enqueued && id !in s.queue && CanTake(s.customers, at)
    case Direct(_, at) => CanTake(s.customers, at)
  }

  /** Nothing is kept from arriving: any unused id may be queued, any queued item run or given up, any item that left the
    * queue run again and any complaint posted directly, each at a planned outage, at an incident that is there or at a
    * new one. */
  lemma AnythingMayArrive(s: Tables, id: nat, c: Complaint, i: nat)
    ensures Possible(s, Enqueue(id, c)) <==> id !in s.enqueued
    ensures forall at :: at in {Planned(i), if i in s.customers then Merges(i) else Opens(i)} ==>
      && Possible(s, Direct(c, at))
      && (Possible(s, Process(id, at)) <==> id in s.queue)
      && (Possible(s, Redeliver(id, at)) <==> id in s.enqueued && id !in s.queue)
    ensures Possible(s, DeadLetter(id, Exhausted)) <==> id in s.queue
    ensures id in s.queue && id in s.rejected ==> Possible(s, DeadLetter(id, s.rejected[id]))
  {
  }

  function Run(s: Tables, id: nat, c: Complaint, at: Place): Tables
    requires CanTake(s.customers, at)
  {
    match Decide(s.rows, c, Some(id))
    case Fresh => Put(s, c, Some(id), at)
    case Duplicate(v) => s.(duplicates := Note(s.duplicates, id, v))
    case Rejected(_) => s
  }

  function Next(s: Tables, e: Event): Tables
    requires Possible(s, e)
  {
    match e
    case Enqueue(id, c) => s.(queue := s.queue[id := c], enqueued := s.enqueued[id := c])
    case Process(id, at) =>
      var d := Decide(s.rows, s.queue[id], Some(id));
      if d.Rejected? then s.(rejected := s.rejected[id := d.reason])
      else Run(s, id, s.queue[id], at).(queue := s.queue - {id})
    case DeadLetter(id, reason) => s.(queue := s.queue - {id}, dead := s.dead[id := reason])
    case Redeliver(id, at) => Run(s, id, s.enqueued[id], at).(again := s.again + {id})
    case Direct(c, at) => if Decide(s.rows, c, None).Fresh? then Put(s, c, None, at) else s
  }

  class Intake {
    var queue: map<nat, Complaint>
    var rows: seq<Row>
    var duplicates: map<nat, Verdict>
    var dead: map<nat, Reason>
    var customers: map<nat, nat>
    ghost var rejected: map<nat, Reason>
    ghost var enqueued: map<nat, Complaint>
    ghost var again: set<nat>

    ghost function State(): Tables
      reads this
    {
      Tables(queue, rows, duplicates, dead, customers, rejected, enqueued, again)
    }

    /** The transaction of one complaint. */
    method ComplaintTx(c: Complaint, item: Option<nat>, at: Place) returns (d: Outcome)
      requires CanTake(customers, at)
      modifies this`rows, this`customers
      ensures d == Decide(old(rows), c, item)
      ensures State() == if d.Fresh? then Put(old(State()), c, item, at) else old(State())
    {
      if c.ext.Some? {
        var sent := ByExt(rows, c.ext.value);
        if sent.Some? { return Duplicate(SameExternalId(sent.value.complaint.qid)); }
      }
      var holder := ByQid(rows, c.qid);
      if holder.Some? {
        if item.Some? && holder.value.item == item { return Duplicate(SameItem(holder.value.complaint.qid)); }
        return Rejected(QidTaken(holder.value, holder.value.complaint.content == c.content));
      }
      match at {
        case Opens(i) => customers := customers[i := 1];
        case Merges(i) => customers := customers[i := customers[i] + 1];
        case Planned(i) =>
      }
      rows := rows + [Row(c, item, at.id, !at.Planned?)];
      return Fresh;
    }

    /** One run of a queue item: the complaint, its verdict if it stored nothing, and the deletion, in one transaction; a
      * rejection rolls back and leaves the item to the dead letter. */
    method ProcessOne(id: nat, at: Place) returns (rejection: Option<Reason>)
      requires id in queue && CanTake(customers, at)
      modifies this
      ensures State() == Next(old(State()), Process(id, at))
      ensures rejection.Some? ==> Decide(old(rows), old(queue)[id], Some(id)) == Rejected(rejection.value)
      ensures rejection.None? ==> !Decide(old(rows), old(queue)[id], Some(id)).Rejected?
    {
      var d := ComplaintTx(queue[id], Some(id), at);
      if d.Rejected? {
        rejected := rejected[id := d.reason];
        return Some(d.reason);
      }
      if d.Duplicate? && id !in duplicates { duplicates := duplicates[id := d.verdict]; }
      queue := queue - {id};
      return None;
    }
  }
  // ---- no complaint stored twice ----

  /** Each qid, and each external id, names at most one row. */
  ghost predicate OneEach(rows: seq<Row>) {
    forall i, j :: 0 <= i < j < |rows| ==>
      rows[i].complaint.qid != rows[j].complaint.qid
      && (rows[i].complaint.ext.Some? ==> rows[i].complaint.ext != rows[j].complaint.ext)
  }

  /** A row says truly which item stored it. */
  ghost predicate FromItems(rows: seq<Row>, enqueued: map<nat, Complaint>) {
    forall k :: 0 <= k < |rows| && rows[k].item.Some? ==>
      rows[k].item.value in enqueued && enqueued[rows[k].item.value] == rows[k].complaint
  }

  ghost predicate Held(rows: seq<Row>, id: nat) { exists k :: 0 <= k < |rows| && rows[k].item == Some(id) }

  lemma HeldAppend(rows: seq<Row>, r: Row, id: nat)
    ensures Held(rows + [r], id) <==> Held(rows, id) || r.item == Some(id)
  {
    assert (rows + [r])[|rows|] == r;
    if Held(rows, id) {
      var k :| 0 <= k < |rows| && rows[k].item == Some(id);
      assert (rows + [r])[k] == rows[k];
    }
  }

  /** What Fresh promises: the row fits into the table, whose keys stay unique. */
  lemma FreshFits(rows: seq<Row>, c: Complaint, item: Option<nat>, at: Place)
    requires OneEach(rows) && Decide(rows, c, item).Fresh?
    ensures OneEach(rows + [RowFor(c, item, at)])
  {
  }

  // ---- the verdicts ----

  ghost predicate Grounded(rows: seq<Row>, c: Complaint, id: nat, v: Verdict) {
    match v
    case SameExternalId(q) => c.ext.Some? && exists k :: 0 <= k < |rows| && rows[k].complaint.ext == c.ext && rows[k].complaint.qid == q
    case SameItem(q) => q == c.qid && Held(rows, id)
  }

  ghost predicate Justified(rows: seq<Row>, c: Complaint, id: nat, r: Reason) {
    r.QidTaken? ==> r.holder in rows && r.holder.complaint.qid == c.qid && r.holder.item != Some(id)
                    && (r.sameContent <==> r.holder.complaint.content == c.content)
  }

  ghost predicate AllGrounded(rows: seq<Row>, enqueued: map<nat, Complaint>, duplicates: map<nat, Verdict>) {
    forall id :: id in duplicates ==> id in enqueued && Grounded(rows, enqueued[id], id, duplicates[id])
  }

  ghost predicate AllJustified(rows: seq<Row>, enqueued: map<nat, Complaint>, reasons: map<nat, Reason>) {
    forall id :: id in reasons ==> id in enqueued && Justified(rows, enqueued[id], id, reasons[id])
  }

  /** The verdict of a run is grounded in the table. */
  lemma DecisionsAreGrounded(rows: seq<Row>, c: Complaint, id: nat)
    ensures var d := Decide(rows, c, Some(id));
      (d.Duplicate? ==> Grounded(rows, c, id, d.verdict)) && (d.Rejected? ==> Justified(rows, c, id, d.reason))
  {
  }

  lemma GroundedAppend(rows: seq<Row>, r: Row, c: Complaint, id: nat, v: Verdict)
    requires Grounded(rows, c, id, v)
    ensures Grounded(rows + [r], c, id, v)
  {
    HeldAppend(rows, r, id);
    if v.SameExternalId? {
      var k :| 0 <= k < |rows| && rows[k].complaint.ext == c.ext && rows[k].complaint.qid == v.existing;
      assert (rows + [r])[k] == rows[k];
    }
  }

  // ---- where an item is ----

  /** An item in the queue is nowhere else; one that left is stored, a duplicate or dead; and, unless it was run again, only
    * one of them. */
  ghost predicate Placed(s: Tables, id: nat) {
    var q, st, du, de := id in s.queue, Held(s.rows, id), id in s.duplicates, id in s.dead;
    && (q ==> !st && !du && !de)
    && (!q ==> st || du || de)
    && (id !in s.again ==> !(st && du) && !(st && de) && !(du && de))
  }

  ghost predicate AllPlaced(s: Tables) { forall id :: id in s.enqueued ==> Placed(s, id) }

  ghost predicate Known(s: Tables) {
    && (forall id :: id in s.queue ==> id in s.enqueued && s.queue[id] == s.enqueued[id])
    && s.again <= s.enqueued.Keys
  }

  // ---- the customers of an incident ----

  function Complaints(rows: seq<Row>, incident: nat): nat {
    if rows == [] then 0
    else Complaints(rows[..|rows| - 1], incident) + (if rows[|rows| - 1].counted && rows[|rows| - 1].incident == incident then 1 else 0)
  }

  ghost predicate Match(base: map<nat, nat>, customers: map<nat, nat>, rows: seq<Row>) {
    && base.Keys <= customers.Keys
    && (forall i :: i in customers ==> customers[i] == (if i in base then base[i] else 0) + Complaints(rows, i))
    && (forall i :: i !in customers ==> Complaints(rows, i) == 0)
  }

  lemma CountedMatches(base: map<nat, nat>, customers: map<nat, nat>, rows: seq<Row>, c: Complaint, item: Option<nat>, at: Place)
    requires Match(base, customers, rows) && CanTake(customers, at)
    ensures Match(base, Counted(customers, at), rows + [RowFor(c, item, at)])
  {
    assert (rows + [RowFor(c, item, at)])[..|rows|] == rows;
  }

  // ---- the invariant ----

  ghost predicate TableInv(base: map<nat, nat>, s: Tables) {
    OneEach(s.rows) && FromItems(s.rows, s.enqueued) && Match(base, s.customers, s.rows)
  }

  ghost predicate Inv(base: map<nat, nat>, s: Tables) {
    && TableInv(base, s) && Known(s) && AllPlaced(s)
    && AllGrounded(s.rows, s.enqueued, s.duplicates)
    && AllJustified(s.rows, s.enqueued, s.dead) && AllJustified(s.rows, s.enqueued, s.rejected)
  }
  lemma InitInv(base: map<nat, nat>)
    ensures Inv(base, Init(base))
  {
  }

  lemma AllAppend(rows: seq<Row>, r: Row, enqueued: map<nat, Complaint>, duplicates: map<nat, Verdict>, reasons: map<nat, Reason>)
    ensures AllGrounded(rows, enqueued, duplicates) ==> AllGrounded(rows + [r], enqueued, duplicates)
    ensures AllJustified(rows, enqueued, reasons) ==> AllJustified(rows + [r], enqueued, reasons)
  {
    if AllGrounded(rows, enqueued, duplicates) {
      forall id | id in duplicates ensures id in enqueued && Grounded(rows + [r], enqueued[id], id, duplicates[id]) {
        GroundedAppend(rows, r, enqueued[id], id, duplicates[id]);
      }
    }
  }

  /** What the invariant says of everything but the queue and the place of each item. */
  ghost predicate Truthful(base: map<nat, nat>, s: Tables) {
    && TableInv(base, s)
    && AllGrounded(s.rows, s.enqueued, s.duplicates)
    && AllJustified(s.rows, s.enqueued, s.dead) && AllJustified(s.rows, s.enqueued, s.rejected)
  }

  lemma PutKeeps(base: map<nat, nat>, s: Tables, c: Complaint, item: Option<nat>, at: Place)
    requires Truthful(base, s) && CanTake(s.customers, at) && Decide(s.rows, c, item).Fresh?
    requires item.Some? ==> item.value in s.enqueued && s.enqueued[item.value] == c
    ensures Truthful(base, Put(s, c, item, at))
  {
    var r := RowFor(c, item, at);
    FreshFits(s.rows, c, item, at);
    CountedMatches(base, s.customers, s.rows, c, item, at);
    AllAppend(s.rows, r, s.enqueued, s.duplicates, s.dead);
    AllAppend(s.rows, r, s.enqueued, s.duplicates, s.rejected);
    assert FromItems(s.rows + [r], s.enqueued);
    hide OneEach, Match, AllGrounded, AllJustified, FromItems;
  }

  lemma RunKeeps(base: map<nat, nat>, s: Tables, id: nat, at: Place)
    requires Truthful(base, s) && CanTake(s.customers, at) && id in s.enqueued
    ensures Truthful(base, Run(s, id, s.enqueued[id], at))
  {
    var c := s.enqueued[id];
    match Decide(s.rows, c, Some(id))
    case Fresh => PutKeeps(base, s, c, Some(id), at);
    case Duplicate(v) =>
      DecisionsAreGrounded(s.rows, c, id);
      hide Decide, TableInv, AllJustified, Grounded;
    case Rejected(_) =>
  }

  lemma EnqueueKeeps(base: map<nat, nat>, s: Tables, id: nat, c: Complaint)
    requires Truthful(base, s) && id !in s.enqueued
    ensures Truthful(base, s.(queue := s.queue[id := c], enqueued := s.enqueued[id := c]))
  {
    hide OneEach, Match, Grounded, Justified;
  }

  lemma RejectionKeeps(base: map<nat, nat>, s: Tables, id: nat)
    requires Truthful(base, s) && id in s.enqueued && Decide(s.rows, s.enqueued[id], Some(id)).Rejected?
    ensures Truthful(base, s.(rejected := s.rejected[id := Decide(s.rows, s.enqueued[id], Some(id)).reason]))
  {
    DecisionsAreGrounded(s.rows, s.enqueued[id], id);
    hide Decide, TableInv, AllGrounded, Justified;
  }

  lemma KeepTruth(base: map<nat, nat>, s: Tables, e: Event)
    requires Truthful(base, s) && Known(s) && Possible(s, e)
    ensures Truthful(base, Next(s, e))
  {
    match e
    case Enqueue(id, c) => EnqueueKeeps(base, s, id, c);
    case Process(id, at) =>
      RunKeeps(base, s, id, at);
      if Decide(s.rows, s.queue[id], Some(id)).Rejected? { RejectionKeeps(base, s, id); }
      hide Decide, Run, TableInv, AllGrounded, AllJustified;
    case DeadLetter(id, reason) =>
      hide TableInv, AllGrounded;
    case Redeliver(id, at) =>
      RunKeeps(base, s, id, at);
      hide Run;
    case Direct(c, at) =>
      if Decide(s.rows, c, None).Fresh? { PutKeeps(base, s, c, None, at); }
      hide Decide, Put;
  }

  lemma RunFrame(s: Tables, id: nat, c: Complaint, at: Place)
    requires CanTake(s.customers, at)
    ensures var s' := Run(s, id, c, at); var d := Decide(s.rows, c, Some(id));
      && s'.queue == s.queue && s'.dead == s.dead && s'.again == s.again && s'.enqueued == s.enqueued
      && s'.rows == s.rows + (if d.Fresh? then [RowFor(c, Some(id), at)] else [])
      && s'.duplicates == if d.Duplicate? then Note(s.duplicates, id, d.verdict) else s.duplicates
  {
    hide Decide, Counted, RowFor, Note;
  }

  /** After a run of an item it is in a final place, and no other item has moved. */
  lemma RunPlaces(s: Tables, id: nat, c: Complaint, at: Place, other: nat)
    requires CanTake(s.customers, at)
    ensures var s' := Run(s, id, c, at); var d := Decide(s.rows, c, Some(id));
      && s'.queue == s.queue && s'.dead == s.dead && s'.again == s.again && s'.enqueued == s.enqueued
      && (Held(s'.rows, other) <==> Held(s.rows, other) || (other == id && d.Fresh?))
      && (other in s'.duplicates <==> other in s.duplicates || (other == id && d.Duplicate?))
  {
    RunFrame(s, id, c, at);
    var r := RowFor(c, Some(id), at);
    assert r.item == Some(id);
    HeldAppend(s.rows, r, other);
    assert s.rows + [] == s.rows;
    hide Run, Decide, Held, RowFor, CanTake;
  }

  lemma DirectPlaces(s: Tables, c: Complaint, at: Place, other: nat)
    requires CanTake(s.customers, at)
    ensures Held(Next(s, Direct(c, at)).rows, other) <==> Held(s.rows, other)
  {
    HeldAppend(s.rows, RowFor(c, None, at), other);
    hide Held;
  }

  lemma ProcessPlaces(s: Tables, id: nat, at: Place, other: nat)
    requires Known(s) && AllPlaced(s) && Possible(s, Process(id, at)) && other in Next(s, Process(id, at)).enqueued
    ensures Placed(Next(s, Process(id, at)), other)
  {
    RunPlaces(s, id, s.queue[id], at, other);
    assert Placed(s, other) && Placed(s, id);
    hide Run, Decide, Held, AllPlaced;
  }

  lemma RedeliverPlaces(s: Tables, id: nat, at: Place, other: nat)
    requires AllPlaced(s) && Possible(s, Redeliver(id, at)) && other in Next(s, Redeliver(id, at)).enqueued
    ensures Placed(Next(s, Redeliver(id, at)), other)
  {
    RunPlaces(s, id, s.enqueued[id], at, other);
    assert Placed(s, other) && Placed(s, id);
    hide Run, Decide, Held, AllPlaced;
  }

  lemma EnqueuePlaces(s: Tables, id: nat, c: Complaint, other: nat)
    requires Known(s) && AllPlaced(s) && FromItems(s.rows, s.enqueued) && id !in s.enqueued
    requires AllGrounded(s.rows, s.enqueued, s.duplicates) && AllJustified(s.rows, s.enqueued, s.dead)
    requires other == id || other in s.enqueued
    ensures Placed(Next(s, Enqueue(id, c)), other)
  {
    assert !Held(s.rows, id);
    assert id !in s.duplicates && id !in s.dead;
    if other != id { assert Placed(s, other); }
    hide AllPlaced, FromItems, AllGrounded, AllJustified, Held;
  }

  lemma KeepPlaced(s: Tables, e: Event, other: nat)
    requires Known(s) && AllPlaced(s) && FromItems(s.rows, s.enqueued) && Possible(s, e)
    requires AllGrounded(s.rows, s.enqueued, s.duplicates) && AllJustified(s.rows, s.enqueued, s.dead)
    requires other in Next(s, e).enqueued
    ensures Placed(Next(s, e), other)
  {
    hide Decide, Held, Run, FromItems, AllGrounded, AllJustified;
    match e
    case Enqueue(id, c) => EnqueuePlaces(s, id, c, other);
    case Process(id, at) => ProcessPlaces(s, id, at, other);
    case DeadLetter(id, reason) =>
    case Redeliver(id, at) => RedeliverPlaces(s, id, at, other);
    case Direct(c, at) => DirectPlaces(s, c, at, other);
  }

  lemma KeepInv(base: map<nat, nat>, s: Tables, e: Event)
    requires Inv(base, s) && Possible(s, e)
    ensures Inv(base, Next(s, e))
  {
    KeepTruth(base, s, e);
    forall other | other in Next(s, e).enqueued ensures Placed(Next(s, e), other) { KeepPlaced(s, e, other); }
    KeepKnown(s, e);
    hide TableInv, Known, Placed, AllGrounded, AllJustified, Next;
  }

  lemma KeepKnown(s: Tables, e: Event)
    requires Known(s) && Possible(s, e)
    ensures Known(Next(s, e))
  {
    if e.Process? || e.Redeliver? {
      RunPlaces(s, e.id, s.enqueued[e.id], e.at, e.id);
      hide Run, Decide;
    }
  }

  // ---- whole runs ----

  ghost predicate PossibleRun(s: Tables, es: seq<Event>)
    decreases |es|
  {
    es == [] || (Possible(s, es[0]) && PossibleRun(Next(s, es[0]), es[1..]))
  }

  ghost function After(s: Tables, es: seq<Event>): Tables
    requires PossibleRun(s, es)
    decreases |es|
  {
    if es == [] then s else After(Next(s, es[0]), es[1..])
  }

  lemma {:induction false} RunInv(base: map<nat, nat>, s: Tables, es: seq<Event>)
    requires Inv(base, s) && PossibleRun(s, es)
    ensures Inv(base, After(s, es))
    decreases |es|
  {
    if es != [] {
      KeepInv(base, s, es[0]);
      RunInv(base, Next(s, es[0]), es[1..]);
    }
  }
  lemma FromStart(base: map<nat, nat>, es: seq<Event>)
    requires PossibleRun(Init(base), es)
    ensures Inv(base, After(Init(base), es))
  {
    InitInv(base);
    RunInv(base, Init(base), es);
  }

  /** The items that stored a row, and how many rows that is. */
  function StoredItems(rows: seq<Row>): set<nat> {
    if rows == [] then {}
    else StoredItems(rows[..|rows| - 1]) + (if rows[|rows| - 1].item.Some? then {rows[|rows| - 1].item.value} else {})
  }

  function StoredByItems(rows: seq<Row>): nat {
    if rows == [] then 0 else StoredByItems(rows[..|rows| - 1]) + (if rows[|rows| - 1].item.Some? then 1 else 0)
  }

  lemma StoredOnlyOnce(rows: seq<Row>, r: Row, enqueued: map<nat, Complaint>)
    requires OneEach(rows + [r]) && FromItems(rows + [r], enqueued)
    ensures OneEach(rows) && FromItems(rows, enqueued) && (r.item.Some? ==> !Held(rows, r.item.value))
  {
    var t := rows + [r];
    assert t[..|rows|] == rows && t[|rows|] == r;
    forall k | 0 <= k < |rows| ensures t[k] == rows[k] && rows[k].complaint.qid != r.complaint.qid {}
  }

  lemma {:induction false} OneRowAnItem(rows: seq<Row>, enqueued: map<nat, Complaint>)
    requires OneEach(rows) && FromItems(rows, enqueued)
    ensures |StoredItems(rows)| == StoredByItems(rows)
    ensures forall id: nat :: id in StoredItems(rows) <==> Held(rows, id)
  {
    if rows != [] {
      var rows0, r := rows[..|rows| - 1], rows[|rows| - 1];
      assert rows == rows0 + [r];
      StoredOnlyOnce(rows0, r, enqueued);
      OneRowAnItem(rows0, enqueued);
      forall id: nat ensures Held(rows, id) <==> Held(rows0, id) || r.item == Some(id) { HeldAppend(rows0, r, id); }
      hide Held, OneEach, FromItems;
    }
  }

  ghost predicate Accounted(s: Tables) {
    var st := StoredItems(s.rows);
    && s.enqueued.Keys == s.queue.Keys + st + s.duplicates.Keys + s.dead.Keys
    && s.queue.Keys !! (st + s.duplicates.Keys + s.dead.Keys)
  }

  ghost predicate OncePlaced(s: Tables) {
    var st := StoredItems(s.rows);
    st !! s.duplicates.Keys && st !! s.dead.Keys && s.duplicates.Keys !! s.dead.Keys
  }

  /** After every run, however often items are run again, each enqueued item is still queued, or is stored, a recorded
    * duplicate or dead; and if none is run again after it left the queue, it is exactly one of these, and the counts add
    * up. */
  lemma EveryItemIsAccountedFor(base: map<nat, nat>, es: seq<Event>)
    requires PossibleRun(Init(base), es)
    ensures var s := After(Init(base), es);
      && Accounted(s)
      && (s.again == {} ==> OncePlaced(s))
      && (s.again == {} ==> |s.enqueued| == |s.queue| + StoredByItems(s.rows) + |s.duplicates| + |s.dead|)
  {
    FromStart(base, es);
    var s := After(Init(base), es);
    OneRowAnItem(s.rows, s.enqueued);
    PlacesAreSets(s);
    var st, all := StoredItems(s.rows), s.queue.Keys;
    hide Held, StoredItems, StoredByItems, Inv, After;
    if s.again == {} {
      assert |s.queue.Keys + st| == |s.queue.Keys| + |st|;
      assert |s.queue.Keys + st + s.duplicates.Keys| == |s.queue.Keys| + |st| + |s.duplicates.Keys|;
      assert |s.enqueued.Keys| == |s.queue.Keys| + |st| + |s.duplicates.Keys| + |s.dead.Keys|;
    }
  }

  lemma PlacesAreSets(s: Tables)
    requires Known(s) && AllPlaced(s) && FromItems(s.rows, s.enqueued)
    requires forall id: nat :: id in StoredItems(s.rows) <==> Held(s.rows, id)
    requires AllGrounded(s.rows, s.enqueued, s.duplicates) && AllJustified(s.rows, s.enqueued, s.dead)
    ensures Accounted(s) && (s.again == {} ==> OncePlaced(s))
  {
    forall id | Held(s.rows, id) ensures id in s.enqueued {
      var k :| 0 <= k < |s.rows| && s.rows[k].item == Some(id);
    }
    hide StoredItems, Held, Grounded, Justified;
    forall id ensures id in s.enqueued ==> Placed(s, id) {}
  }

  /** A qid is never owned by two complaints, nor an external id, nor is an item stored twice: not by reused qids, not by
    * items run again, not by complaints taken without the queue. */
  lemma OneOwner(base: map<nat, nat>, es: seq<Event>, j: nat, k: nat)
    requires PossibleRun(Init(base), es) && var rows := After(Init(base), es).rows; j < k < |rows|
    ensures var rows := After(Init(base), es).rows;
      && rows[j].complaint.qid != rows[k].complaint.qid
      && (rows[j].complaint.ext.Some? ==> rows[j].complaint.ext != rows[k].complaint.ext)
      && (rows[j].item.Some? ==> rows[j].item != rows[k].item)
  {
    FromStart(base, es);
  }

  lemma RowsGrow(s: Tables, e: Event)
    requires Possible(s, e)
    ensures s.rows <= Next(s, e).rows
  {
    hide Decide;
    if e.Process? { assert s.rows <= Run(s, e.id, s.queue[e.id], e.at).rows; }
    if e.Redeliver? { assert s.rows <= Run(s, e.id, s.enqueued[e.id], e.at).rows; }
    hide Run;
  }

  /** Whatever happens, a stored complaint stays as it is. */
  lemma {:induction false} RowsStay(s: Tables, es: seq<Event>)
    requires PossibleRun(s, es)
    ensures s.rows <= After(s, es).rows
    decreases |es|
  {
    if es != [] {
      RowsGrow(s, es[0]);
      hide Next, Possible;
      RowsStay(Next(s, es[0]), es[1..]);
    }
  }

  /** Each recorded duplicate names a stored complaint with the same external id, or its own item's; each item refused for its
    * qid names the complaint of another item that has it. */
  lemma VerdictsAreTrue(base: map<nat, nat>, es: seq<Event>, id: nat)
    requires PossibleRun(Init(base), es)
    ensures var s := After(Init(base), es);
      && (id in s.duplicates ==> id in s.enqueued && Grounded(s.rows, s.enqueued[id], id, s.duplicates[id]))
      && (id in s.dead ==> id in s.enqueued && Justified(s.rows, s.enqueued[id], id, s.dead[id]))
  {
    FromStart(base, es);
  }

  /** Every complaint stored for an incident counted its customer once: merges are never lost, and neither duplicates nor
    * rejections count. */
  lemma CustomersAreComplaints(base: map<nat, nat>, es: seq<Event>, i: nat)
    requires PossibleRun(Init(base), es) && i in After(Init(base), es).customers
    ensures var s := After(Init(base), es); s.customers[i] == (if i in base then base[i] else 0) + Complaints(s.rows, i)
  {
    FromStart(base, es);
  }

  /** An item that stored its complaint and runs again stores nothing; the second run is on record. */
  lemma RedeliveryIsADuplicate(base: map<nat, nat>, es: seq<Event>, id: nat, at: Place)
    requires PossibleRun(Init(base), es) && Possible(After(Init(base), es), Redeliver(id, at))
    requires Held(After(Init(base), es).rows, id)
    ensures var s := After(Init(base), es); var s' := Next(s, Redeliver(id, at)); s'.rows == s.rows && id in s'.duplicates
  {
    FromStart(base, es);
    var s := After(Init(base), es);
    OwnRowDecides(s.rows, s.enqueued, id);
    hide Inv, Held, Decide, After;
  }

  lemma OwnRowDecides(rows: seq<Row>, enqueued: map<nat, Complaint>, id: nat)
    requires OneEach(rows) && FromItems(rows, enqueued) && Held(rows, id)
    ensures id in enqueued && Decide(rows, enqueued[id], Some(id)).Duplicate?
  {
    var k :| 0 <= k < |rows| && rows[k].item == Some(id);
    HolderIsTheRow(rows, enqueued[id].qid, k);
  }

  lemma HolderIsTheRow(rows: seq<Row>, qid: nat, k: nat)
    requires OneEach(rows) && k < |rows| && rows[k].complaint.qid == qid
    ensures ByQid(rows, qid) == Some(rows[k])
  {
    var r := ByQid(rows, qid);
    var j :| 0 <= j < |rows| && rows[j] == r.value;
  }

  // ---- what the caller is answered ----

  datatype Answer = Created(qid: nat) | AlreadyStored(qid: nat) | Refused(qid: nat, reason: Reason) | StillQueued(qid: nat)

  /** The complaint found for a submission: by its external id, or else the one its own item stored. */
  function Find(rows: seq<Row>, c: Complaint, id: nat): (r: Option<Row>)
    ensures r.Some? ==> r.value in rows
  {
    if c.ext.Some? then ByExt(rows, c.ext.value)
    else
      var r := ByQid(rows, c.qid);
      if r.Some? && r.value.item == Some(id) then r else None
  }

  /** What the submission of item id is answered: first it looks for its complaint, then, if there is none, whether the item
    * is dead; the worker may commit between the two reads. */
  function AnswerTo(c: Complaint, id: nat, rows: seq<Row>, dead: map<nat, Reason>): Answer {
    var found := Find(rows, c, id);
    if found.Some? then
      if found.value.complaint.qid != c.qid then AlreadyStored(found.value.complaint.qid) else Created(c.qid)
    else if id in dead then Refused(c.qid, dead[id])
    else StillQueued(c.qid)
  }

  lemma {:induction false} DeadStayDead(s: Tables, es: seq<Event>, id: nat)
    requires PossibleRun(s, es) && id in s.dead
    ensures id in After(s, es).dead
    decreases |es|
  {
    if es != [] {
      assert id in Next(s, es[0]).dead by { hide Decide, After; }
      hide Next, Possible;
      DeadStayDead(Next(s, es[0]), es[1..], id);
    }
  }

  lemma {:induction false} StaysEnqueued(s: Tables, es: seq<Event>, id: nat)
    requires PossibleRun(s, es) && id in s.enqueued
    ensures id in After(s, es).enqueued && After(s, es).enqueued[id] == s.enqueued[id]
    decreases |es|
  {
    if es != [] {
      assert id in Next(s, es[0]).enqueued && Next(s, es[0]).enqueued[id] == s.enqueued[id] by { hide Decide, After; }
      hide Next, Possible;
      StaysEnqueued(Next(s, es[0]), es[1..], id);
    }
  }

  lemma StoredIsFound(s: Tables, id: nat)
    requires OneEach(s.rows) && FromItems(s.rows, s.enqueued) && id in s.enqueued && Held(s.rows, id)
    ensures Find(s.rows, s.enqueued[id], id).Some?
  {
    var k :| 0 <= k < |s.rows| && s.rows[k].item == Some(id);
    HolderIsTheRow(s.rows, s.enqueued[id].qid, k);
  }

  lemma DuplicateIsFound(s: Tables, id: nat)
    requires OneEach(s.rows) && FromItems(s.rows, s.enqueued) && AllGrounded(s.rows, s.enqueued, s.duplicates) && id in s.duplicates
    ensures id in s.enqueued && Find(s.rows, s.enqueued[id], id).Some?
  {
    assert Grounded(s.rows, s.enqueued[id], id, s.duplicates[id]);
    if Held(s.rows, id) { StoredIsFound(s, id); }
  }

  /** An item whose complaint is not found is waiting or dead. */
  lemma NotFound(s: Tables, id: nat)
    requires OneEach(s.rows) && FromItems(s.rows, s.enqueued) && AllGrounded(s.rows, s.enqueued, s.duplicates)
    requires id in s.enqueued && Placed(s, id) && Find(s.rows, s.enqueued[id], id).None?
    ensures !Held(s.rows, id) && (id in s.queue || id in s.dead)
  {
    hide OneEach, FromItems, AllGrounded, Held, Find;
    if Held(s.rows, id) { StoredIsFound(s, id); }
    if id in s.duplicates { DuplicateIsFound(s, id); }
  }

  /** Looked up in one run, found or not, and then, whatever happened meanwhile, among the dead: 202 means that the item was
    * in the queue when its complaint was looked for, and 409 that it is dead, that nothing was stored for it by then, and
    * that nothing is unless it is run again. A 202 is out of date exactly when the item was stored or found a duplicate
    * between the two reads. */
  lemma AnswersAreHonest(base: map<nat, nat>, es: seq<Event>, more: seq<Event>, id: nat)
    requires PossibleRun(Init(base), es) && PossibleRun(After(Init(base), es), more) && id in After(Init(base), es).enqueued
    ensures var s := After(Init(base), es); var s' := After(s, more);
      var a := AnswerTo(s.enqueued[id], id, s.rows, s'.dead);
      && (a.StillQueued? ==> id in s.queue && (id !in s'.queue <==> Held(s'.rows, id) || id in s'.duplicates))
      && (a.Refused? ==> id in s'.dead && !Held(s.rows, id) && (id !in s'.again ==> !Held(s'.rows, id)))
  {
    FromStart(base, es);
    var s := After(Init(base), es);
    RunInv(base, s, more);
    StaysEnqueued(s, more, id);
    var s' := After(s, more);
    assert Placed(s, id) && Placed(s', id);
    if Find(s.rows, s.enqueued[id], id).None? { NotFound(s, id); }
    if id in s.dead { DeadStayDead(s, more, id); }
    hide Inv, Find, Held, After;
  }

  /** The answer never tells of somebody else's complaint: what is found has the submission's external id, or was stored by
    * its own item. */
  lemma AnswersNameOwnComplaint(base: map<nat, nat>, es: seq<Event>, id: nat, dead: map<nat, Reason>, k: nat)
    requires PossibleRun(Init(base), es) && id in After(Init(base), es).enqueued && k < |After(Init(base), es).rows|
    requires var s := After(Init(base), es); var a := AnswerTo(s.enqueued[id], id, s.rows, dead);
      (a.Created? || a.AlreadyStored?) && s.rows[k].complaint.qid == a.qid
    ensures var s := After(Init(base), es); var c := s.enqueued[id];
      if c.ext.Some? then s.rows[k].complaint.ext == c.ext else s.rows[k].item == Some(id)
  {
    FromStart(base, es);
    var s := After(Init(base), es);
    HolderIsTheRow(s.rows, s.rows[k].complaint.qid, k);
    var f := Find(s.rows, s.enqueued[id], id);
    var j :| 0 <= j < |s.rows| && s.rows[j] == f.value;
    HolderIsTheRow(s.rows, s.rows[k].complaint.qid, j);
  }

  /** 201 is for a complaint stored by this very item, except exactly when the counter gave its qid out before to a
    * submission with the same external id, and that one was stored. */
  lemma CreatedByItselfExactly(base: map<nat, nat>, es: seq<Event>, id: nat, dead: map<nat, Reason>)
    requires PossibleRun(Init(base), es) && id in After(Init(base), es).enqueued
    requires var s := After(Init(base), es); AnswerTo(s.enqueued[id], id, s.rows, dead).Created?
    ensures var s := After(Init(base), es); var c := s.enqueued[id];
      Held(s.rows, id) <==>
      !exists k :: 0 <= k < |s.rows| && s.rows[k].item != Some(id) && s.rows[k].complaint.qid == c.qid && s.rows[k].complaint.ext == c.ext
  {
    FromStart(base, es);
    var s := After(Init(base), es);
    var c := s.enqueued[id];
    var f := Find(s.rows, c, id);
    var j :| 0 <= j < |s.rows| && s.rows[j] == f.value;
    if Held(s.rows, id) {
      var k :| 0 <= k < |s.rows| && s.rows[k].item == Some(id);
      assert s.rows[k].complaint == c;
      HolderIsTheRow(s.rows, c.qid, k);
      forall i | 0 <= i < |s.rows| && s.rows[i].complaint.qid == c.qid ensures s.rows[i].item == Some(id) {
        HolderIsTheRow(s.rows, c.qid, i);
      }
    }
  }

  /** The worker stores a complaint after it was looked for and before the dead letter is read: 202 "queued" is answered for a
    * stored complaint. */
  lemma QueuedThoughStored()
    ensures var c := Complaint(1, None, 0);
      var s := Next(Init(map[]), Enqueue(1, c));
      && Possible(s, Process(1, Opens(0)))
      && (var s' := Next(s, Process(1, Opens(0)));
          AnswerTo(c, 1, s.rows, s'.dead) == StillQueued(1) && 1 !in s'.queue && Held(s'.rows, 1))
  {
    var c := Complaint(1, None, 0);
    var s' := Next(Next(Init(map[]), Enqueue(1, c)), Process(1, Opens(0)));
    assert s'.rows[0].item == Some(1);
  }

  ghost predicate Sent(rows: seq<Row>, c: Complaint) {
    exists k :: 0 <= k < |rows| && (rows[k].complaint.qid == c.qid || (c.ext.Some? && rows[k].complaint.ext == c.ext))
  }

  /** A waiting complaint ends up stored under the qid it was answered exactly if, when its item is run, neither its external
    * id nor its qid is stored already; and only then does anything get stored. */
  lemma StoredUnderItsQidExactly(base: map<nat, nat>, es: seq<Event>, id: nat, at: Place)
    requires PossibleRun(Init(base), es) && Possible(After(Init(base), es), Process(id, at))
    ensures var s := After(Init(base), es); var s' := Next(s, Process(id, at));
      && (Held(s'.rows, id) <==> !Sent(s.rows, s.queue[id]))
      && (s'.rows == s.rows <==> Sent(s.rows, s.queue[id]))
  {
    FromStart(base, es);
    var s := After(Init(base), es);
    var c := s.queue[id];
    assert Placed(s, id);
    RunFrame(s, id, c, at);
    RunPlaces(s, id, c, at, id);
    FreshExactly(s.rows, c, id);
    hide Inv, After, Decide, Run, Held, Sent;
  }

  lemma FreshExactly(rows: seq<Row>, c: Complaint, id: nat)
    ensures Decide(rows, c, Some(id)).Fresh? <==> !Sent(rows, c)
  {
  }

  /** A qid answered with 202 may never be stored: a complaint sent twice before either copy was processed is answered two
    * qids, and only the first becomes a row. */
  lemma QueuedUnderAnotherQid()
    ensures
      var c, d := Complaint(1, Some(9), 0), Complaint(2, Some(9), 0);
      var s := Next(Next(Init(map[]), Enqueue(1, c)), Enqueue(2, d));
      && AnswerTo(c, 1, s.rows, s.dead) == StillQueued(1) && AnswerTo(d, 2, s.rows, s.dead) == StillQueued(2)
      && Possible(s, Process(1, Opens(0))) && Possible(Next(s, Process(1, Opens(0))), Process(2, Merges(0)))
      && (var t := Next(Next(s, Process(1, Opens(0))), Process(2, Merges(0)));
          AnswerTo(d, 2, t.rows, t.dead) == AlreadyStored(1) && ByQid(t.rows, 2).None? && t.customers[0] == 1)
  {
    var c, d := Complaint(1, Some(9), 0), Complaint(2, Some(9), 0);
    var s := Next(Next(Init(map[]), Enqueue(1, c)), Enqueue(2, d));
    var s1 := Next(s, Process(1, Opens(0)));
    assert s1.rows == [Row(c, Some(1), 0, true)] && s1.customers == map[0 := 1];
    assert s1.rows[1..] == [];
    assert Decide(s1.rows, d, Some(2)) == Duplicate(SameExternalId(1));
  }
}
