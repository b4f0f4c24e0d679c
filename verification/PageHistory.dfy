/** Back and forward through the pages of the crew app, and the job open on top of them (src/NativeApp.jsx). */
module PageHistory {
  import opened Common

  /** A job on the list: whether the control room cancelled it, and the crew it is assigned to, if known. */
  datatype Job = Job(id: nat, cancelled: bool, crew: Option<nat>)

  /** A page's job: null, left out altogether, or a job's id. The first two are different to the app. */
  datatype JobRef = NoJob | Unset | OnJob(id: nat)

  datatype Page = Page(tab: nat, job: JobRef)

  datatype App = App(back: seq<Page>, page: Page, forward: seq<Page>, tab: nat, open: Option<nat>, jobs: seq<Job>, synced: bool)

  datatype Event =
    | OpenPage(page: Page)
    | GoBack
    | GoForward
    | Refresh(items: seq<Job>, fromServer: bool, me: Option<nat>)
    | SignOut(fallback: seq<Job>)

  const DASHBOARD := 0

  function Init(jobs: seq<Job>): App { App([], Page(DASHBOARD, NoJob), [], DASHBOARD, None, jobs, false) }

  /** The first job of the list with an id. */
  function Find(jobs: seq<Job>, id: nat): (j: Option<Job>)
    ensures j.Some? ==> j.value.id == id
  {
    if jobs == [] then None else if jobs[0].id == id then Some(jobs[0]) else Find(jobs[1..], id)
  }

  /** The job a page shows: its own, while it is on the list. */
  function Shown(p: Page, jobs: seq<Job>): Option<nat> {
    if p.job.OnJob? && Find(jobs, p.job.id).Some? then Some(p.job.id) else None
  }

  function Land(s: App, p: Page): App { s.(page := p, tab := p.tab, open := Shown(p, s.jobs)) }

  /** Cancelled, or given to another crew. */
  predicate TakenAway(j: Job, me: Option<nat>) { j.cancelled || (me.Some? && j.crew.Some? && j.crew != me) }

  function Close(s: App): App { s.(page := s.page.(job := NoJob), open := None) }

  /** Does the server's list say that the open job is no longer this crew's? */
  predicate Closes(s: App, me: Option<nat>) {
    s.open.Some? && s.synced && (var j := Find(s.jobs, s.open.value); j.None? || TakenAway(j.value, me))
  }

  predicate Accepted(items: seq<Job>, fromServer: bool) { fromServer || items != [] }

  function Refreshed(s: App, items: seq<Job>, fromServer: bool): App { s.(jobs := items, synced := fromServer) }

  function Next(s: App, e: Event): App {
    match e
    case OpenPage(p) => if s.page == p then s else Land(s.(back := s.back + [s.page], forward := []), p)
    case GoBack =>
      if s.back == [] then s
      else Land(s.(back := s.back[..|s.back| - 1], forward := s.forward + [s.page]), s.back[|s.back| - 1])
    case GoForward =>
      if s.forward == [] then s
      else Land(s.(forward := s.forward[..|s.forward| - 1], back := s.back + [s.page]), s.forward[|s.forward| - 1])
    case Refresh(items, fromServer, me) =>
      if !Accepted(items, fromServer) then s
      else
        var s' := Refreshed(s, items, fromServer);
        if Closes(s', me) then Close(s') else s'
    case SignOut(fallback) => Close(s).(jobs := fallback, synced := false)
  }

  /** Which list the app holds: the last one that came from the server or was not empty, or the fallback after a sign-out, and
    * whether it came from the server. */
  lemma ListsExactly(s: App, e: Event)
    ensures var s' := Next(s, e);
      match e
      case Refresh(items, fromServer, _) => if fromServer || items != [] then s'.jobs == items && (s'.synced <==> fromServer) else s' == s
      case SignOut(fallback) => s'.jobs == fallback && !s'.synced && s'.open == None
      case _ => s'.jobs == s.jobs && s'.synced == s.synced
  {
  }

  lemma {:induction false} FindExactly(jobs: seq<Job>, id: nat, k: nat)
    requires k <= |jobs| && forall i :: 0 <= i < k ==> jobs[i].id != id
    ensures k == |jobs| ==> Find(jobs, id) == None
    ensures k < |jobs| && jobs[k].id == id ==> Find(jobs, id) == Some(jobs[k])
  {
    if k > 0 {
      assert forall i :: 0 <= i < k - 1 ==> jobs[1..][i] == jobs[i + 1];
      FindExactly(jobs[1..], id, k - 1);
    }
  }

  lemma {:induction false} FoundAt(jobs: seq<Job>, id: nat) returns (k: nat)
    ensures k <= |jobs| && (forall i :: 0 <= i < k ==> jobs[i].id != id) && (k < |jobs| ==> jobs[k].id == id)
  {
    k := 0;
    if jobs != [] && jobs[0].id != id {
      var j := FoundAt(jobs[1..], id);
      k := j + 1;
      assert forall i :: 0 < i < k ==> jobs[i] == jobs[1..][i - 1];
    }
  }

  /** A refresh closes the open job exactly if its list is the server's and does not have the job, has it cancelled, or has it
    * with another crew than this one. */
  lemma ClosedExactly(s: App, items: seq<Job>, fromServer: bool, me: Option<nat>)
    requires s.open.Some?
    ensures Next(s, Refresh(items, fromServer, me)).open == None <==>
      && fromServer
      && forall k :: 0 <= k < |items| && items[k].id == s.open.value && (forall i :: 0 <= i < k ==> items[i].id != s.open.value) ==>
        items[k].cancelled || (me.Some? && items[k].crew.Some? && items[k].crew.value != me.value)
  {
    var k := FoundAt(items, s.open.value);
    FindExactly(items, s.open.value, k);
  }

  class History {
    var back: seq<Page>
    var page: Page
    var forward: seq<Page>
    var tab: nat
    var open: Option<nat>
    var jobs: seq<Job>
    var synced: bool

    ghost function State(): App
      reads this
    {
      App(back, page, forward, tab, open, jobs, synced)
    }

    constructor (js: seq<Job>)
      ensures State() == Init(js)
    {
      back, page, forward, tab, open, jobs, synced := [], Page(DASHBOARD, NoJob), [], DASHBOARD, None, js, false;
    }

    method Open(p: Page)
      modifies this
      ensures State() == Next(old(State()), OpenPage(p))
    {
      if page == p { return; }
      back, forward := back + [page], [];
      page, tab := p, p.tab;
      open := Shown(p, jobs);
    }

    method Back()
      modifies this
      ensures State() == Next(old(State()), GoBack)
    {
      if |back| == 0 { return; }
      var previous := back[|back| - 1];
      forward := forward + [page];
      page, tab := previous, previous.tab;
      open := Shown(previous, jobs);
      back := back[..|back| - 1];
    }

    method Forward()
      modifies this
      ensures State() == Next(old(State()), GoForward)
    {
      if |forward| == 0 { return; }
      var next := forward[|forward| - 1];
      back := back + [page];
      page, tab := next, next.tab;
      open := Shown(next, jobs);
      forward := forward[..|forward| - 1];
    }

    /** A new job list, and the check of the open job that follows it. */
    method SetJobs(items: seq<Job>, fromServer: bool, me: Option<nat>)
      modifies this
      ensures State() == Next(old(State()), Refresh(items, fromServer, me))
    {
      if !fromServer && |items| == 0 { return; }
      synced, jobs := fromServer, items;
      if open.None? || !synced { return; }
      var listed := Find(jobs, open.value);
      var movedAway := listed.Some? && me.Some? && listed.value.crew.Some? && listed.value.crew != me;
      if listed.Some? && !listed.value.cancelled && !movedAway { return; }
      page, open := page.(job := NoJob), None;
    }
  }

  // ---- the two stacks are a list of pages with a cursor ----

  datatype Trail = Trail(pages: seq<Page>, at: nat)

  function Reverse(s: seq<Page>): (r: seq<Page>)
    ensures |r| == |s|
  {
    if s == [] then [] else [s[|s| - 1]] + Reverse(s[..|s| - 1])
  }

  function TrailOf(s: App): (t: Trail)
    ensures t.at < |t.pages| && t.pages[t.at] == s.page
  {
    Trail(s.back + [s.page] + Reverse(s.forward), |s.back|)
  }

  function Moved(t: Trail, e: Event, closes: bool): Trail
    requires t.at < |t.pages|
  {
    match e
    case OpenPage(p) => if t.pages[t.at] == p then t else Trail(t.pages[..t.at + 1] + [p], t.at + 1)
    case GoBack => if t.at == 0 then t else t.(at := t.at - 1)
    case GoForward => if t.at + 1 == |t.pages| then t else t.(at := t.at + 1)
    case Refresh(_, _, _) => if closes then t.(pages := t.pages[t.at := t.pages[t.at].(job := NoJob)]) else t
    case SignOut(_) => t.(pages := t.pages[t.at := t.pages[t.at].(job := NoJob)])
  }

  ghost predicate ClosesAt(s: App, e: Event) {
    e.Refresh? && Accepted(e.items, e.fromServer) && Closes(Refreshed(s, e.items, e.fromServer), e.me)
  }

  /** Opening a page drops what lies ahead and appends, Back and Forward move the cursor, and losing the open job clears it
    * from the page at the cursor and from no other. */
  lemma RefinesTrail(s: App, e: Event)
    ensures TrailOf(Next(s, e)) == Moved(TrailOf(s), e, ClosesAt(s, e))
  {
    var s', t := Next(s, e), TrailOf(s);
    match e
    case OpenPage(p) =>
      assert t.pages[..t.at + 1] == s.back + [s.page];
      assert TrailOf(s').pages == s'.back + [s'.page] + Reverse(s'.forward);
    case GoBack =>
      if s.back != [] {
        assert s'.forward[..|s.forward|] == s.forward;
        assert s.back == s'.back + [s'.page];
        assert TrailOf(s').pages == t.pages;
      }
    case GoForward =>
      if s.forward != [] { assert TrailOf(s').pages == t.pages; }
    case Refresh(_, _, _) => assert TrailOf(s').pages == Moved(t, e, ClosesAt(s, e)).pages;
    case SignOut(_) => assert TrailOf(s').pages == Moved(t, e, false).pages;
  }

  lemma {:induction false} ReverseInjective(a: seq<Page>, b: seq<Page>)
    requires Reverse(a) == Reverse(b)
    ensures a == b
  {
    assert |a| == |Reverse(a)| == |b|;
    if a != [] {
      var m := |a| - 1;
      assert Reverse(a)[0] == a[m] && Reverse(b)[0] == b[m];
      assert Reverse(a)[1..] == Reverse(a[..m]) && Reverse(b)[1..] == Reverse(b[..m]);
      ReverseInjective(a[..m], b[..m]);
      assert a == a[..m] + [a[m]] && b == b[..m] + [b[m]];
    }
  }

  /** Nothing is lost in that view: the list and the cursor give both stacks and the page back. */
  lemma TrailIsEverything(s: App, r: App)
    requires TrailOf(s) == TrailOf(r)
    ensures s.back == r.back && s.page == r.page && s.forward == r.forward
  {
    var n := |s.back|;
    assert s.back == TrailOf(s).pages[..n] == r.back;
    assert Reverse(s.forward) == TrailOf(s).pages[n + 1..] == Reverse(r.forward);
    ReverseInjective(s.forward, r.forward);
  }

  // ---- runs ----

  function After(s: App, es: seq<Event>): App
    decreases |es|
  {
    if es == [] then s else After(Next(s, es[0]), es[1..])
  }

  function Times(e: Event, k: nat): seq<Event> { seq(k, _ => e) }

  lemma {:induction false} AfterAppend(s: App, a: seq<Event>, b: seq<Event>)
    ensures After(s, a + b) == After(After(s, a), b)
    decreases |a|
  {
    if a == [] {
      assert a + b == b;
    } else {
      assert (a + b)[1..] == a[1..] + b;
      AfterAppend(Next(s, a[0]), a[1..], b);
    }
  }

  /** k steps one way move the cursor by k and leave the list and the jobs alone. */
  lemma {:induction false} Walk(s: App, e: Event, k: nat)
    requires (e == GoBack && k <= |s.back|) || (e == GoForward && k <= |s.forward|)
    ensures var r := After(s, Times(e, k));
      && TrailOf(r) == TrailOf(s).(at := if e == GoBack then |s.back| - k else |s.back| + k)
      && r.jobs == s.jobs && r.synced == s.synced && (k > 0 ==> r == Land(r, r.page))
    decreases k
  {
    if k > 0 {
      assert Times(e, k)[1..] == Times(e, k - 1);
      RefinesTrail(s, e);
      Walk(Next(s, e), e, k - 1);
    } else {
      assert Times(e, 0) == [];
    }
  }

  /** k times Back and then k times Forward come back to the same page with the same history on both sides, and everything
    * is as before exactly if the open job was already the one the page shows; the other way round too. */
  lemma ThereAndBack(s: App, k: nat, e: Event, f: Event)
    requires 0 < k && ((e == GoBack && f == GoForward && k <= |s.back|) || (e == GoForward && f == GoBack && k <= |s.forward|))
    ensures After(s, Times(e, k) + Times(f, k)) == Land(s, s.page)
    ensures After(s, Times(e, k) + Times(f, k)) == s <==> s.tab == s.page.tab && s.open == Shown(s.page, s.jobs)
  {
    Walk(s, e, k);
    var m := After(s, Times(e, k));
    assert |TrailOf(m).pages| == |m.back| + 1 + |m.forward|;
    Walk(m, f, k);
    AfterAppend(s, Times(e, k), Times(f, k));
    TrailIsEverything(After(m, Times(f, k)), s);
  }

  // ---- the open job and the page ----

  /** A job that is open is the page's own, and the tab is the page's. */
  predicate InStep(s: App) { s.tab == s.page.tab && (s.open.Some? ==> s.page.job == OnJob(s.open.value)) }

  lemma {:induction false} RunInStep(s: App, es: seq<Event>)
    requires InStep(s)
    ensures InStep(After(s, es))
    decreases |es|
  {
    if es != [] { RunInStep(Next(s, es[0]), es[1..]); }
  }

  /** After every run an open job is that of the current page, also after it was closed by force. */
  lemma OpenJobIsThePages(jobs: seq<Job>, es: seq<Event>)
    ensures InStep(After(Init(jobs), es))
  {
    RunInStep(Init(jobs), es);
  }

  /** The page names a job that is not open. */
  predicate Missing(s: App) { s.page.job.OnJob? && s.open.None? }

  predicate Lands(s: App, e: Event) {
    match e
    case OpenPage(p) => s.page != p
    case GoBack => s.back != []
    case GoForward => s.forward != []
    case Refresh(_, _, _) => false
    case SignOut(_) => false
  }

  /** Did the run's last move come to a page whose job was not on the list, with no sign-out since? */
  predicate MissedLast(s: App, es: seq<Event>, missed: bool)
    decreases |es|
  {
    if es == [] then missed
    else
      var s', e := Next(s, es[0]), es[0];
      MissedLast(s', es[1..], if Lands(s, e) then s'.page.job.OnJob? && Find(s'.jobs, s'.page.job.id).None? else missed && !e.SignOut?)
  }

  lemma {:induction false} MissingRun(s: App, es: seq<Event>)
    requires InStep(s)
    ensures Missing(After(s, es)) <==> MissedLast(s, es, Missing(s))
    decreases |es|
  {
    if es != [] { MissingRun(Next(s, es[0]), es[1..]); }
  }

  /** The other direction fails exactly so: the page's job is not open just when the last move came to it while the job was
    * not on the list, however the list changed after. */
  lemma PagesJobIsOpenExactly(jobs: seq<Job>, es: seq<Event>)
    ensures var s := After(Init(jobs), es);
      (s.page.job.OnJob? ==> s.open == Some(s.page.job.id)) <==> !MissedLast(Init(jobs), es, false)
  {
    MissingRun(Init(jobs), es);
    RunInStep(Init(jobs), es);
  }

  // ---- closing by force ----

  /** The open job is one the list no longer gives this crew. */
  predicate OnTakenJob(s: App, me: Option<nat>) {
    s.open.Some? && (var j := Find(s.jobs, s.open.value); j.None? || TakenAway(j.value, me))
  }

  /** A server's answer leaves no job open that was taken away, keeps any other open, and touches neither stack. */
  lemma ServerAnswerCloses(s: App, items: seq<Job>, me: Option<nat>)
    requires InStep(s)
    ensures var s' := Next(s, Refresh(items, true, me));
      && !OnTakenJob(s', me)
      && (s'.open == s.open <==> !OnTakenJob(s.(jobs := items), me))
      && (s'.page != s.page ==> s'.open.None? && s.open.Some? && s'.page == Page(s.tab, NoJob))
      && s'.back == s.back && s'.forward == s.forward
  {
  }

  /** But moving through the pages opens a job taken away exactly if the page reached names one still listed as such: the
    * list is checked when it changes, not when a page is opened. */
  lemma ReopensExactly(s: App, e: Event, me: Option<nat>)
    requires Lands(s, e)
    ensures var s' := Next(s, e);
      OnTakenJob(s', me) <==>
      s'.page.job.OnJob? && Find(s.jobs, s'.page.job.id).Some? && TakenAway(Find(s.jobs, s'.page.job.id).value, me)
  {
  }

  /** It happens: from a job to the map; meanwhile the job is cancelled; Back opens it again. */
  lemma BackReopensACancelledJob()
    ensures var es := [OpenPage(Page(1, OnJob(5))), OpenPage(Page(2, NoJob)), Refresh([Job(5, true, Some(1))], true, Some(1)), GoBack];
      var s := After(Init([Job(5, false, Some(1))]), es);
      s.open == Some(5) && OnTakenJob(s, Some(1))
  {
    var live, gone := [Job(5, false, Some(1))], [Job(5, true, Some(1))];
    var e4 := [GoBack];
    var e3 := [Refresh(gone, true, Some(1))] + e4;
    var e2 := [OpenPage(Page(2, NoJob))] + e3;
    var e1 := [OpenPage(Page(1, OnJob(5)))] + e2;
    assert e1[1..] == e2 && e2[1..] == e3 && e3[1..] == e4 && e4[1..] == [];
    var s1 := Next(Init(live), e1[0]);
    var s2 := Next(s1, e2[0]);
    var s3 := Next(s2, e3[0]);
    var s4 := Next(s3, GoBack);
    assert After(s3, e4) == After(s4, []) == s4;
    assert After(s2, e3) == s4;
    assert After(s1, e2) == s4;
    assert e1 == [OpenPage(Page(1, OnJob(5))), OpenPage(Page(2, NoJob)), Refresh(gone, true, Some(1)), GoBack];
  }

  // ---- no page follows itself ----

  predicate Apart(pages: seq<Page>, k: nat) { k + 1 < |pages| ==> pages[k] != pages[k + 1] }

  ghost predicate NoRepeat(pages: seq<Page>) { forall k: nat :: Apart(pages, k) }

  /** p is where Back or Forward goes. */
  predicate Beside(s: App, p: Page) {
    (s.back != [] && s.back[|s.back| - 1] == p) || (s.forward != [] && s.forward[|s.forward| - 1] == p)
  }

  /** Neighbouring pages differ, so that every press of Back or Forward shows another page, exactly as long as no job is
    * closed beside the same tab without a job. */
  lemma PressesShowAnotherPage(s: App, e: Event)
    requires InStep(s) && NoRepeat(TrailOf(s).pages)
    ensures NoRepeat(TrailOf(Next(s, e)).pages) <==> !((ClosesAt(s, e) || e.SignOut?) && Beside(s, Page(s.page.tab, NoJob)))
  {
    RefinesTrail(s, e);
    var p, q, n := TrailOf(s).pages, TrailOf(Next(s, e)).pages, |s.back|;
    if e.OpenPage? {
      if s.page != e.page {
        forall k: nat ensures Apart(q, k) { assert Apart(p, k); }
      }
    } else if ClosesAt(s, e) || e.SignOut? {
      assert s.back != [] ==> p[n - 1] == s.back[n - 1];
      assert s.forward != [] ==> p[n + 1] == s.forward[|s.forward| - 1];
      forall k: nat | k != n && k + 1 != n ensures Apart(q, k) { assert Apart(p, k); }
      assert NoRepeat(q) ==> Apart(q, n) && (n > 0 ==> Apart(q, n - 1));
    }
  }
}
