/** The crew job's status ladder (backend/src/domain/jobWorkflow.js and the job routes of backend/src/routes/api.js):
  * which late, duplicate and out-of-order crew updates the server applies, and what reopening does to old ones.
  */
module JobWorkflow {
  import opened Common

  datatype Status =
    | PendingAcceptance | Assigned | Acknowledged | RequiresRevisit
    | EnRoute | OnSite | WorkStarted | WorkComplete
    | Cancelled | Closed | Rejected

  datatype Source = FromCrew | FromDispatch

  /** One row of the job's history. */
  datatype Update = Update(status: Status, ts: int, source: Source)

  datatype IncidentStatus = Open | Dispatched | InProgress | Pending | Resolved

  /** `incident` is None for a job without one. */
  datatype Job = Job(status: Status, completedAt: Option<int>, incident: Option<IncidentStatus>, updates: seq<Update>)

  datatype Decision = Applied(skipped: seq<Status>) | NotApplied(notify: bool)

  /** Position on the ladder; cancelled, closed and rejected jobs are off it. */
  function Rank(s: Status): Option<nat> {
    match s
    case PendingAcceptance => Some(0)
    case Assigned => Some(0)
    case Acknowledged => Some(0)
    case RequiresRevisit => Some(0)
    case EnRoute => Some(1)
    case OnSite => Some(2)
    case WorkStarted => Some(3)
    case WorkComplete => Some(4)
    case _ => None
  }

  predicate IsCrewStatus(s: Status) { s in {Acknowledged, EnRoute, OnSite, WorkStarted, WorkComplete} }

  /** A crew reports its acknowledgement and every step above the bottom of the ladder, and nothing else. */
  lemma CrewReports(s: Status)
    ensures IsCrewStatus(s) <==> s == Acknowledged || (Rank(s).Some? && Rank(s).value > 0)
  {
  }

  const LADDER := [EnRoute, OnSite, WorkStarted, WorkComplete]

  /** The newest update the crew itself made; control-room rows do not count. */
  function LatestCrewTs(updates: seq<Update>): Option<int> {
    if updates == [] then None
    else
      var rest, u := LatestCrewTs(updates[..|updates| - 1]), updates[|updates| - 1];
      if u.source.FromDispatch? then rest
      else if rest.None? || rest.value < u.ts then Some(u.ts) else rest
  }

  predicate Late(ts: int, latest: Option<int>) { latest.Some? && ts < latest.value }

  function Skipped(from_: nat, to: nat): seq<Status> {
    Filter((s: Status) => Rank(s).Some? && from_ < Rank(s).value < to, LADDER)
  }

  function DecideStatus(current: Status, next: Status, ts: int, latest: Option<int>): Decision
    requires IsCrewStatus(next)
  {
    if current == next then NotApplied(false)
    else if Late(ts, latest) then NotApplied(true)
    else if Rank(current).None? then NotApplied(true)
    else if Rank(next).value < Rank(current).value then NotApplied(true)
    else Applied(Skipped(Rank(current).value, Rank(next).value))
  }

  /** The crew may still undo a finished job: inside the window, and while its incident is pending verification. */
  predicate UndoOpen(j: Job, windowMs: nat, now: int) {
    j.status == WorkComplete && j.completedAt.Some? && (j.incident.Some? ==> j.incident.value == Pending) && now < j.completedAt.value + windowMs
  }

  predicate Locked(j: Job, windowMs: nat, now: int) { j.status == WorkComplete && !UndoOpen(j, windowMs, now) }

  // ---- the job routes ----

  function IncidentAfter(incident: Option<IncidentStatus>, next: Status): Option<IncidentStatus> {
    if incident.None? then None
    else if next == WorkComplete then Some(Pending)
    else if (next == OnSite || next == WorkStarted) && incident.value in {Open, Dispatched} then Some(InProgress)
    else incident
  }

  function Write(j: Job, next: Status, ts: int, source: Source, now: int): Job {
    Job(next, if next == WorkComplete then Some(now) else j.completedAt, IncidentAfter(j.incident, next), j.updates + [Update(next, ts, source)])
  }

  /** A status update, from the crew or from the control room on its behalf. */
  function Deliver(j: Job, windowMs: nat, next: Status, ts: int, source: Source, now: int): Job
    requires IsCrewStatus(next)
  {
    if Locked(j, windowMs, now) then j
    else if DecideStatus(j.status, next, ts, LatestCrewTs(j.updates)).Applied? then Write(j, next, ts, source, now)
    else j
  }

  /** Undo of a finished job; the history row counts as the crew's own only if the crew did it. */
  function Reopen(j: Job, windowMs: nat, source: Source, now: int): Job {
    if !UndoOpen(j, windowMs, now) then j
    else Job(WorkStarted, None, if j.incident.Some? then Some(InProgress) else None, j.updates + [Update(WorkStarted, now, source)])
  }

  /** The control room sends a finished job back to its crew. */
  function ReturnForCorrection(j: Job, now: int): Job {
    if j.status != WorkComplete || j.incident != Some(Pending) then j
    else Job(RequiresRevisit, None, Some(InProgress), j.updates + [Update(RequiresRevisit, now, FromDispatch)])
  }

  lemma FilterLadder(p: Status -> bool)
    ensures Filter(p, LADDER) ==
      (if p(EnRoute) then [EnRoute] else []) + (if p(OnSite) then [OnSite] else [])
      + (if p(WorkStarted) then [WorkStarted] else []) + (if p(WorkComplete) then [WorkComplete] else [])
  {
    FilterAppend(p, [], EnRoute);
    FilterAppend(p, [EnRoute], OnSite);
    FilterAppend(p, [EnRoute, OnSite], WorkStarted);
    FilterAppend(p, [EnRoute, OnSite, WorkStarted], WorkComplete);
    assert LADDER == [] + [EnRoute] + [OnSite] + [WorkStarted] + [WorkComplete];
    assert [] + [EnRoute] == [EnRoute] && [EnRoute] + [OnSite] == [EnRoute, OnSite]
      && [EnRoute, OnSite] + [WorkStarted] == [EnRoute, OnSite, WorkStarted];
  }

  /** A skipped step is applied, and the note names exactly the steps in between, in ladder order. */
  lemma SkippedAreTheStepsBetween(current: Status, next: Status, ts: int, latest: Option<int>)
    requires IsCrewStatus(next) && DecideStatus(current, next, ts, latest).Applied?
    ensures var skipped, lo, hi := DecideStatus(current, next, ts, latest).skipped, Rank(current).value, Rank(next).value;
      && |skipped| == (if lo < hi then hi - lo - 1 else 0)
      && forall k :: 0 <= k < |skipped| ==> Rank(skipped[k]) == Some(lo + 1 + k)
  {
    var lo, hi := Rank(current).value, Rank(next).value;
    FilterLadder((s: Status) => Rank(s).Some? && lo < Rank(s).value < hi);
  }

  // ---- convergence ----

  datatype Report = Report(status: Status, ts: int)

  /** A crew's own history on one job: up the ladder, never back in time. */
  ghost predicate CrewHistory(h: seq<Report>) {
    && (forall i :: 0 <= i < |h| ==> IsCrewStatus(h[i].status))
    && (forall i, j :: 0 <= i < j < |h| ==> Rank(h[i].status).value < Rank(h[j].status).value && h[i].ts <= h[j].ts)
  }

  /** Which report of h arrives, and when by the server's clock. */
  datatype Arrival = Arrival(index: nat, now: int)

  ghost predicate Of(h: seq<Report>, arrivals: seq<Arrival>) {
    forall k :: 0 <= k < |arrivals| ==> arrivals[k].index < |h|
  }

  /** The phone's reports arriving in any order, any number of times each. */
  ghost function Receive(j: Job, windowMs: nat, h: seq<Report>, arrivals: seq<Arrival>): Job
    requires CrewHistory(h) && Of(h, arrivals)
  {
    if arrivals == [] then j
    else
      var a := arrivals[|arrivals| - 1];
      Deliver(Receive(j, windowMs, h, arrivals[..|arrivals| - 1]), windowMs, h[a.index].status, h[a.index].ts, FromCrew, a.now)
  }

  function Newest(arrivals: seq<Arrival>): nat
    requires arrivals != []
  {
    if |arrivals| == 1 then arrivals[0].index
    else
      var rest, i := Newest(arrivals[..|arrivals| - 1]), arrivals[|arrivals| - 1].index;
      if rest < i then i else rest
  }

  lemma LatestAppend(updates: seq<Update>, u: Update)
    ensures LatestCrewTs(updates + [u]) ==
      if u.source.FromDispatch? then LatestCrewTs(updates)
      else if LatestCrewTs(updates).None? || LatestCrewTs(updates).value < u.ts then Some(u.ts) else LatestCrewTs(updates)
  {
    assert (updates + [u])[..|updates|] == updates;
  }

  /** The job stands where report m left it. */
  ghost predicate StandsAt(j: Job, h: seq<Report>, m: nat) {
    m < |h| && j.status == h[m].status && (LatestCrewTs(j.updates).None? || LatestCrewTs(j.updates).value <= h[m].ts)
  }

  /** One more arrival moves the job to the newer of where it stood and what arrived; an old one changes nothing at all. */
  lemma ArrivalMovesUp(j: Job, windowMs: nat, h: seq<Report>, m: nat, i: nat, now: int)
    requires CrewHistory(h) && StandsAt(j, h, m) && i < |h|
    ensures var j' := Deliver(j, windowMs, h[i].status, h[i].ts, FromCrew, now);
      (i <= m ==> j' == j) && (m < i ==> StandsAt(j', h, i))
  {
    LatestAppend(j.updates, Update(h[i].status, h[i].ts, FromCrew));
  }

  /** Not yet under way, and nothing from this crew newer than the history. */
  ghost predicate Fresh(j: Job, h: seq<Report>) {
    Rank(j.status) == Some(0) && (LatestCrewTs(j.updates).None? || forall i :: 0 <= i < |h| ==> LatestCrewTs(j.updates).value <= h[i].ts)
  }

  /** Whatever the order and however often each report arrives, the job ends where the newest one that arrived says,
    * locked or not in between. */
  lemma {:induction false} Converges(j: Job, windowMs: nat, h: seq<Report>, arrivals: seq<Arrival>)
    requires CrewHistory(h) && Of(h, arrivals) && arrivals != [] && Fresh(j, h)
    ensures Newest(arrivals) < |h| && StandsAt(Receive(j, windowMs, h, arrivals), h, Newest(arrivals))
  {
    var n := |arrivals| - 1;
    var i := arrivals[n].index;
    if n == 0 {
      assert Receive(j, windowMs, h, arrivals[..0]) == j;
      LatestAppend(j.updates, Update(h[i].status, h[i].ts, FromCrew));
    } else {
      Converges(j, windowMs, h, arrivals[..n]);
      var j0 := Receive(j, windowMs, h, arrivals[..n]);
      ArrivalMovesUp(j0, windowMs, h, Newest(arrivals[..n]), i, arrivals[n].now);
    }
  }

  /** Two phones' worth of luck, one answer: any two delivery orders that end with the same newest report agree. */
  lemma OrderDoesNotMatter(j: Job, windowMs: nat, h: seq<Report>, a: seq<Arrival>, b: seq<Arrival>)
    requires CrewHistory(h) && Of(h, a) && Of(h, b) && a != [] && b != [] && Fresh(j, h) && Newest(a) == Newest(b)
    ensures Receive(j, windowMs, h, a).status == Receive(j, windowMs, h, b).status
  {
    Converges(j, windowMs, h, a);
    Converges(j, windowMs, h, b);
  }

  /** Replaying any part of what already arrived changes nothing: no status, no history row, no completion time. */
  lemma {:induction false} ReplayChangesNothing(j: Job, windowMs: nat, h: seq<Report>, m: nat, replays: seq<Arrival>)
    requires CrewHistory(h) && StandsAt(j, h, m) && forall k :: 0 <= k < |replays| ==> replays[k].index <= m
    ensures Of(h, replays) && Receive(j, windowMs, h, replays) == j
  {
    if replays != [] {
      var n := |replays| - 1;
      ReplayChangesNothing(j, windowMs, h, m, replays[..n]);
      ArrivalMovesUp(j, windowMs, h, m, replays[n].index, replays[n].now);
    }
  }

  // ---- replays after a reopen or a return ----

  /** After the crew's own undo, no report made before it changes anything: the undo is the crew's newest update. */
  lemma {:induction false} ReplayAfterCrewReopen(j: Job, windowMs: nat, h: seq<Report>, reopenedAt: int, replays: seq<Arrival>)
    requires CrewHistory(h) && Of(h, replays) && UndoOpen(j, windowMs, reopenedAt)
    requires forall i :: 0 <= i < |h| ==> h[i].ts < reopenedAt
    ensures var j' := Reopen(j, windowMs, FromCrew, reopenedAt); Receive(j', windowMs, h, replays) == j'
  {
    var j' := Reopen(j, windowMs, FromCrew, reopenedAt);
    LatestAppend(j.updates, Update(WorkStarted, reopenedAt, FromCrew));
    if replays != [] {
      ReplayAfterCrewReopen(j, windowMs, h, reopenedAt, replays[..|replays| - 1]);
    }
  }

  /** After an undo by the control room, one report finishes the job again exactly when it is a Work Complete that is not
    * older than the crew's newest update. */
  lemma FinishAfterControlRoomReopen(j: Job, windowMs: nat, reopenedAt: int, r: Report, now: int)
    requires UndoOpen(j, windowMs, reopenedAt) && IsCrewStatus(r.status)
    ensures var j' := Reopen(j, windowMs, FromDispatch, reopenedAt);
      Deliver(j', windowMs, r.status, r.ts, FromCrew, now) != j' <==> r.status == WorkComplete && !Late(r.ts, LatestCrewTs(j.updates))
  {
    LatestAppend(j.updates, Update(WorkStarted, reopenedAt, FromDispatch));
  }

  ghost predicate FinishArrives(h: seq<Report>, replays: seq<Arrival>, latest: Option<int>)
    requires Of(h, replays)
  {
    exists k :: 0 <= k < |replays| && h[replays[k].index].status == WorkComplete && !Late(h[replays[k].index].ts, latest)
  }

  /** After an undo by the control room, old reports arriving in any order and number finish the job again exactly when one
    * of them is a Work Complete not older than the crew's newest update -- so the very report that had finished the job
    * does -- and otherwise change nothing. */
  lemma {:induction false} ReplayAfterControlRoomReopen(j: Job, windowMs: nat, reopenedAt: int, h: seq<Report>, replays: seq<Arrival>)
    requires UndoOpen(j, windowMs, reopenedAt) && CrewHistory(h) && Of(h, replays)
    ensures var j' := Reopen(j, windowMs, FromDispatch, reopenedAt); var r := Receive(j', windowMs, h, replays);
      if FinishArrives(h, replays, LatestCrewTs(j.updates)) then r.status == WorkComplete else r == j'
  {
    if replays != [] {
      var n := |replays| - 1;
      var a, latest := replays[n], LatestCrewTs(j.updates);
      ReplayAfterControlRoomReopen(j, windowMs, reopenedAt, h, replays[..n]);
      FinishAfterControlRoomReopen(j, windowMs, reopenedAt, h[a.index], a.now);
      assert FinishArrives(h, replays, latest)
        <==> FinishArrives(h, replays[..n], latest) || (h[a.index].status == WorkComplete && !Late(h[a.index].ts, latest)) by {
        FinishLast(h, replays, latest);
      }
      hide LatestCrewTs, FinishArrives, Skipped, UndoOpen;
    }
  }

  lemma FinishLast(h: seq<Report>, replays: seq<Arrival>, latest: Option<int>)
    requires Of(h, replays) && replays != []
    ensures var n := |replays| - 1; var r := h[replays[n].index];
      FinishArrives(h, replays, latest) <==> FinishArrives(h, replays[..n], latest) || (r.status == WorkComplete && !Late(r.ts, latest))
  {
    var n := |replays| - 1;
    if FinishArrives(h, replays[..n], latest) {
      var k :| 0 <= k < n && h[replays[..n][k].index].status == WorkComplete && !Late(h[replays[..n][k].index].ts, latest);
      assert replays[k] == replays[..n][k];
    }
    if FinishArrives(h, replays, latest) {
      var k :| 0 <= k <= n && h[replays[k].index].status == WorkComplete && !Late(h[replays[k].index].ts, latest);
      if k < n { assert replays[..n][k] == replays[k]; }
    }
  }

  /** After a return for correction, one report moves the job again exactly when it is not older than the crew's newest
    * update. */
  lemma MoveAfterReturn(j: Job, windowMs: nat, returnedAt: int, r: Report, now: int)
    requires j.status == WorkComplete && j.incident == Some(Pending) && IsCrewStatus(r.status)
    ensures var j' := ReturnForCorrection(j, returnedAt);
      Deliver(j', windowMs, r.status, r.ts, FromCrew, now) != j' <==> !Late(r.ts, LatestCrewTs(j.updates))
  {
    LatestAppend(j.updates, Update(RequiresRevisit, returnedAt, FromDispatch));
  }

  ghost predicate AllLate(h: seq<Report>, replays: seq<Arrival>, latest: Option<int>)
    requires Of(h, replays)
  {
    forall k :: 0 <= k < |replays| ==> Late(h[replays[k].index].ts, latest)
  }

  lemma HistoryStays(j: Job, windowMs: nat, r: Report, now: int)
    requires IsCrewStatus(r.status)
    ensures |j.updates| <= |Deliver(j, windowMs, r.status, r.ts, FromCrew, now).updates|
    ensures Deliver(j, windowMs, r.status, r.ts, FromCrew, now) != j ==> |j.updates| < |Deliver(j, windowMs, r.status, r.ts, FromCrew, now).updates|
  {
    hide DecideStatus, Locked;
  }

  /** After a return for correction, old reports arriving in any order and number leave the job as it was returned exactly
    * when every one of them is older than the crew's newest update. */
  lemma {:induction false} ReplayAfterReturn(j: Job, windowMs: nat, returnedAt: int, h: seq<Report>, replays: seq<Arrival>)
    requires j.status == WorkComplete && j.incident == Some(Pending) && CrewHistory(h) && Of(h, replays)
    ensures var j' := ReturnForCorrection(j, returnedAt); var r := Receive(j', windowMs, h, replays);
      && (r == j' <==> AllLate(h, replays, LatestCrewTs(j.updates)))
      && (r != j' ==> |j'.updates| < |r.updates|)
  {
    if replays != [] {
      var n := |replays| - 1;
      var a, latest, j' := replays[n], LatestCrewTs(j.updates), ReturnForCorrection(j, returnedAt);
      ReplayAfterReturn(j, windowMs, returnedAt, h, replays[..n]);
      MoveAfterReturn(j, windowMs, returnedAt, h[a.index], a.now);
      HistoryStays(Receive(j', windowMs, h, replays[..n]), windowMs, h[a.index], a.now);
      assert AllLate(h, replays, latest) <==> AllLate(h, replays[..n], latest) && Late(h[a.index].ts, latest);
      hide LatestCrewTs, AllLate, Deliver, ReturnForCorrection;
    }
  }

  /** The promise that an old finish is never applied again fails: finish at 4, control room reopens (or returns) at 10,
    * the phone resends the same finish -- and the job is complete once more. */
  lemma OldFinishAppliedAgain()
    ensures var j := Write(Job(WorkStarted, None, Some(InProgress), []), WorkComplete, 4, FromCrew, 5);
      && Deliver(Reopen(j, 600000, FromDispatch, 10), 600000, WorkComplete, 4, FromCrew, 11).status == WorkComplete
      && Deliver(ReturnForCorrection(j, 10), 600000, WorkComplete, 4, FromCrew, 11).status == WorkComplete
      && Deliver(Reopen(j, 600000, FromCrew, 10), 600000, WorkComplete, 4, FromCrew, 11).status == WorkStarted
  {
    var u := Update(WorkComplete, 4, FromCrew);
    var j := Write(Job(WorkStarted, None, Some(InProgress), []), WorkComplete, 4, FromCrew, 5);
    assert j.updates == [] + [u];
    LatestAppend([], u);
    hide Skipped, LatestCrewTs;
    FinishAfterControlRoomReopen(j, 600000, 10, Report(WorkComplete, 4), 11);
    MoveAfterReturn(j, 600000, 10, Report(WorkComplete, 4), 11);
    ReplayAfterCrewReopen(j, 600000, [Report(WorkComplete, 4)], 10, [Arrival(0, 11)]);
    ReceiveOne(Reopen(j, 600000, FromCrew, 10), 600000, Report(WorkComplete, 4), 11);
  }

  lemma ReceiveOne(j: Job, windowMs: nat, r: Report, now: int)
    requires IsCrewStatus(r.status)
    ensures Receive(j, windowMs, [r], [Arrival(0, now)]) == Deliver(j, windowMs, r.status, r.ts, FromCrew, now)
  {
    assert [Arrival(0, now)][..0] == [];
  }

  // ---- what each route does, in the job's own fields ----

  /** The new status is further up the ladder, or an early one for another early one. */
  predicate Onward(current: Status, next: Status) {
    match next
    case Acknowledged => current in {PendingAcceptance, Assigned, RequiresRevisit}
    case EnRoute => current in {PendingAcceptance, Assigned, RequiresRevisit, Acknowledged}
    case OnSite => current in {PendingAcceptance, Assigned, RequiresRevisit, Acknowledged, EnRoute}
    case WorkStarted => current in {PendingAcceptance, Assigned, RequiresRevisit, Acknowledged, EnRoute, OnSite}
    case WorkComplete => current in {PendingAcceptance, Assigned, RequiresRevisit, Acknowledged, EnRoute, OnSite, WorkStarted}
    case _ => false
  }

  /** The steps of the ladder between two statuses. */
  function Between(current: Status, next: Status): seq<Status> {
    var early := current in {PendingAcceptance, Assigned, RequiresRevisit, Acknowledged};
    match next
    case OnSite => if early then [EnRoute] else []
    case WorkStarted => if early then [EnRoute, OnSite] else if current == EnRoute then [OnSite] else []
    case WorkComplete =>
      if early then [EnRoute, OnSite, WorkStarted] else if current == EnRoute then [OnSite, WorkStarted]
      else if current == OnSite then [WorkStarted] else []
    case _ => []
  }

  /** The job takes the report: it leads onward, and the crew itself made no newer one. */
  ghost predicate Takes(j: Job, next: Status, ts: int) {
    Onward(j.status, next) && forall k :: 0 <= k < |j.updates| && j.updates[k].source == FromCrew ==> j.updates[k].ts <= ts
  }

  lemma {:induction false} LateExactly(updates: seq<Update>, ts: int)
    ensures !Late(ts, LatestCrewTs(updates)) <==> forall k :: 0 <= k < |updates| && updates[k].source == FromCrew ==> updates[k].ts <= ts
  {
    if updates != [] {
      var n := |updates| - 1;
      LateExactly(updates[..n], ts);
      assert forall k :: 0 <= k < n ==> updates[..n][k] == updates[k];
    }
  }

  /** A report leads onward exactly if it is a new status, not below the current one, of a job still on the ladder. */
  lemma OnwardExactly(current: Status, next: Status)
    requires IsCrewStatus(next)
    ensures Onward(current, next) <==>
      current != next && Rank(current).Some? && Rank(next).Some? && Rank(current).value <= Rank(next).value
  {
  }

  lemma BetweenExactly(current: Status, next: Status)
    requires IsCrewStatus(next) && Rank(current).Some? && Rank(next).Some?
    ensures Skipped(Rank(current).value, Rank(next).value) == Between(current, next)
  {
    var lo, hi := Rank(current).value, Rank(next).value;
    FilterLadder((s: Status) => Rank(s).Some? && lo < Rank(s).value < hi);
    hide Filter;
  }

  lemma DecidesExactly(j: Job, next: Status, ts: int)
    requires IsCrewStatus(next)
    ensures var d := DecideStatus(j.status, next, ts, LatestCrewTs(j.updates));
      (d.Applied? <==> Takes(j, next, ts)) && (d.Applied? ==> d.skipped == Between(j.status, next))
      && (d.NotApplied? ==> (d.notify <==> j.status != next))
  {
    LateExactly(j.updates, ts);
    OnwardExactly(j.status, next);
    assert Rank(next).Some?;
    if Rank(j.status).Some? { BetweenExactly(j.status, next); }
    hide LatestCrewTs, Late, Skipped, Onward, Between, Rank;
  }

  /** The undo is open: the job is complete since less than the window, and its incident, if it has one, pending. */
  ghost predicate Undoable(j: Job, windowMs: nat, now: int) {
    j.status == WorkComplete && (exists c :: j.completedAt == Some(c) && now < c + windowMs) && (j.incident == None || j.incident == Some(Pending))
  }

  /** What a crew's report makes of a job: the status and a history row, the server's time if it is complete, and its incident in
    * progress or pending. A complete job takes none. */
  lemma DeliverExactly(j: Job, windowMs: nat, next: Status, ts: int, source: Source, now: int)
    requires IsCrewStatus(next)
    ensures var j' := Deliver(j, windowMs, next, ts, source, now);
      if !Takes(j, next, ts) then j' == j
      else
        && j'.status == next && j'.updates == j.updates + [Update(next, ts, source)]
        && j'.completedAt == (if next == WorkComplete then Some(now) else j.completedAt)
        && j'.incident == (if j.incident == None then None else if next == WorkComplete then Some(Pending)
                           else if (next == OnSite || next == WorkStarted) && (j.incident == Some(Open) || j.incident == Some(Dispatched))
                           then Some(InProgress) else j.incident)
  {
    DecidesExactly(j, next, ts);
    hide DecideStatus, LatestCrewTs;
  }

  /** The undo changes the job exactly while it is open: work started again, no completion time, its incident in progress. */
  lemma ReopenExactly(j: Job, windowMs: nat, source: Source, now: int)
    ensures var j' := Reopen(j, windowMs, source, now);
      && (j' != j <==> Undoable(j, windowMs, now))
      && (j' != j ==> j' == Job(WorkStarted, None, if j.incident == None then None else Some(InProgress), j.updates + [Update(WorkStarted, now, source)]))
  {
  }

  /** From the finish on the undo is open for exactly the window, by the server's clock, as long as nobody moves the incident. */
  lemma UndoneWithinTheWindow(j: Job, windowMs: nat, ts: int, source: Source, done: int, undoer: Source, now: int)
    requires Takes(j, WorkComplete, ts)
    ensures var finished := Deliver(j, windowMs, WorkComplete, ts, source, done);
      Reopen(finished, windowMs, undoer, now) != finished <==> now < done + windowMs
  {
    DeliverExactly(j, windowMs, WorkComplete, ts, source, done);
    hide Takes, Deliver;
  }

  /** A job is locked exactly if it is complete and its undo is not open. */
  lemma LockedExactly(j: Job, windowMs: nat, now: int)
    ensures Locked(j, windowMs, now) <==>
      && j.status == WorkComplete
      && (j.completedAt == None || (exists c :: j.completedAt == Some(c) && now >= c + windowMs) || (j.incident != None && j.incident != Some(Pending)))
  {
  }

  /** A return for correction changes exactly a complete job whose incident is pending. */
  lemma ReturnExactly(j: Job, now: int)
    ensures ReturnForCorrection(j, now) ==
      if j.status == WorkComplete && j.incident == Some(Pending)
      then Job(RequiresRevisit, None, Some(InProgress), j.updates + [Update(RequiresRevisit, now, FromDispatch)]) else j
  {
  }

  // ---- the route's compare-and-set loop ----

  datatype Outcome = Landed(skipped: seq<Status>) | Declined(notify: bool) | Reassigned | Busy

  /** The jobs table row, as every concurrent request reads and writes it. */
  class JobRow {
    var job: Job
    var crew: Option<nat>

    constructor (j: Job, c: Option<nat>)
      ensures job == j && crew == c
    {
      job, crew := j, c;
    }

    /** updateJobIf: lands only while the job is still on that crew and at that status. */
    method UpdateJobIf(fromCrew: nat, fromStatus: Status, next: Status, ts: int, source: Source, now: int) returns (written: bool)
      modifies this`job
      ensures written <==> crew == Some(fromCrew) && old(job).status == fromStatus
      ensures job == if written then Write(old(job), next, ts, source, now) else old(job)
    {
      written := crew == Some(fromCrew) && job.status == fromStatus;
      if written { job := Write(job, next, ts, source, now); }
    }
  }

  /** The job as the route reads it before its k-th write. */
  ghost function Seen(first: Job, meanwhile: seq<(Job, Option<nat>)>, k: nat): Job
    requires k <= |meanwhile|
  {
    if k == 0 then first else meanwhile[k - 1].0
  }

  /** The k-th write was decided on, and missed because the job had moved on under the same crew. */
  ghost predicate Missed(first: Job, meanwhile: seq<(Job, Option<nat>)>, holder: nat, next: Status, ts: int, k: nat)
    requires k < |meanwhile|
  {
    Takes(Seen(first, meanwhile, k), next, ts) && meanwhile[k].1 == Some(holder) && meanwhile[k].0.status != Seen(first, meanwhile, k).status
  }

  /** The k-th write was decided on, and lands: the job is where it was seen, though others may have written besides. */
  ghost predicate Hits(first: Job, meanwhile: seq<(Job, Option<nat>)>, holder: nat, next: Status, ts: int, k: nat)
    requires k < |meanwhile|
  {
    Takes(Seen(first, meanwhile, k), next, ts) && meanwhile[k].1 == Some(holder) && meanwhile[k].0.status == Seen(first, meanwhile, k).status
  }

  /** PATCH status: decide on the job as last read, write only if it still stands there, else decide again on the new
    * state, three times at most. `meanwhile[k]` is what other requests leave in the row just before the k-th write. */
  method PatchStatus(row: JobRow, holder: nat, next: Status, ts: int, source: Source, now: int, meanwhile: seq<(Job, Option<nat>)>)
    returns (o: Outcome)
    requires IsCrewStatus(next) && |meanwhile| == 3 && row.crew == Some(holder)
    modifies row
    ensures o.Landed? ==>
      exists k :: 0 <= k < 3 && Hits(old(row.job), meanwhile, holder, next, ts, k)
        && row.job == Write(meanwhile[k].0, next, ts, source, now) && o.skipped == Between(meanwhile[k].0.status, next)
    ensures o.Declined? ==>
      exists k :: 0 <= k < 3 && row.job == Seen(old(row.job), meanwhile, k) && !Takes(row.job, next, ts)
        && (o.notify <==> row.job.status != next)
    ensures o.Reassigned? ==> exists k :: 0 <= k < 3 && (row.job, row.crew) == meanwhile[k] && row.crew != Some(holder)
    ensures o.Busy? ==> row.job == meanwhile[2].0 && forall k :: 0 <= k < 3 ==> Missed(old(row.job), meanwhile, holder, next, ts, k)
  {
    var current := row.job;
    var attempt := 0;
    while attempt < 3
      invariant 0 <= attempt <= 3
      invariant row.crew == Some(holder) && current == row.job == Seen(old(row.job), meanwhile, attempt)
      invariant forall k :: 0 <= k < attempt ==> Missed(old(row.job), meanwhile, holder, next, ts, k)
    {
      DecidesExactly(row.job, next, ts);
      assert attempt < 3;
      hide Takes, Between, DecideStatus, Write;
      var decision := DecideStatus(current.status, next, ts, LatestCrewTs(row.job.updates));
      if decision.NotApplied? { return Declined(decision.notify); }
      row.job, row.crew := meanwhile[attempt].0, meanwhile[attempt].1;
      var written := row.UpdateJobIf(holder, current.status, next, ts, source, now);
      if written { return Landed(decision.skipped); }
      if row.crew != Some(holder) { return Reassigned; }
      current := row.job;
      attempt := attempt + 1;
    }
    o := Busy;
  }
}
