/** What every run of the connection controller keeps (desktop/src/controller.ts). */
module ControllerTheorems {
  import opened Collections
  import opened ControllerSpec

  // ---- the invariant ---------------------------------------------------------------------------

  /** Nothing is scheduled under the current attempt. */
  ghost predicate Idle(w: Work) {
    w.timer.None? && forall id :: id in w.ops ==> w.ops[id].attempt != w.attempt
  }

  ghost predicate AtMostOneLive(w: Work) {
    && (forall i, j ::
          i in w.ops && j in w.ops && w.ops[i].attempt == w.attempt && w.ops[j].attempt == w.attempt ==> i == j)
    && (w.timer.Some? ==>
          w.timer.value.attempt == w.attempt && forall id :: id in w.ops ==> w.ops[id].attempt != w.attempt)
  }

  ghost predicate Numbered(w: Work) {
    && (forall id :: id in w.ops ==> id < w.nextOp && w.ops[id].attempt <= w.attempt)
    && (forall l :: l in w.launched ==> l.attempt <= w.attempt)
  }

  predicate BeforeLaunch(op: Op) { op.StartProbing? || op.StartChecking? }

  /** One launch per attempt, and none yet for a start that is still checking. */
  ghost predicate LaunchesApart(w: Work) {
    && (forall i, j :: 0 <= i < j < |w.launched| ==> w.launched[i].attempt < w.launched[j].attempt)
    && (forall id, l :: id in w.ops && BeforeLaunch(w.ops[id]) && l in w.launched ==> l.attempt != w.ops[id].attempt)
  }

  /** While a server is being started, the screen says so. */
  ghost predicate ScreenFits(w: Work, phase: Phase) {
    && (forall id :: id in w.ops && w.ops[id].attempt == w.attempt && !w.ops[id].Probing? ==> phase == Starting)
    && (w.timer.Some? && w.timer.value.Poll? ==> phase == Starting)
  }

  ghost predicate WorkInv(w: Work) { AtMostOneLive(w) && Numbered(w) && LaunchesApart(w) }

  ghost predicate Inv(s: State) { WorkInv(s.work) && ScreenFits(s.work, s.view.phase) }

  // ---- scheduling keeps it ---------------------------------------------------------------------

  lemma SupersededKeeps(w: Work)
    requires WorkInv(w)
    ensures WorkInv(Superseded(w)) && Idle(Superseded(w))
  {
  }

  lemma IdleFits(w: Work, phase: Phase)
    requires Idle(w)
    ensures ScreenFits(w, phase)
  {
  }

  lemma EndedKeeps(w: Work, id: nat, phase: Phase)
    requires WorkInv(w) && ScreenFits(w, phase) && id in w.ops
    ensures WorkInv(Ended(w, id)) && ScreenFits(Ended(w, id), phase)
    ensures w.ops[id].attempt == w.attempt ==> Idle(Ended(w, id))
  {
  }

  lemma BegunKeeps(w: Work, op: Op, phase: Phase)
    requires WorkInv(w) && Idle(w) && op.attempt == w.attempt && (op.Probing? || phase == Starting)
    requires BeforeLaunch(op) ==> forall l :: l in w.launched ==> l.attempt != op.attempt
    ensures WorkInv(Begun(w, op)) && ScreenFits(Begun(w, op), phase)
  {
    var v := Begun(w, op);
    assert forall id :: id in v.ops ==> id == w.nextOp || id in w.ops;
  }

  lemma ArmedKeeps(w: Work, timer: Timer, phase: Phase)
    requires WorkInv(w) && Idle(w) && timer.attempt == w.attempt && (timer.Retry? || phase == Starting)
    ensures WorkInv(Armed(w, timer)) && ScreenFits(Armed(w, timer), phase)
  {
  }

  lemma LaunchedKeeps(w: Work, launch: Launch)
    requires WorkInv(w) && Idle(w) && launch.attempt == w.attempt
    requires forall l :: l in w.launched ==> l.attempt != launch.attempt
    ensures WorkInv(Launched(w, launch)) && Idle(Launched(w, launch))
  {
    var v := Launched(w, launch);
    forall i, j | 0 <= i < j < |v.launched| ensures v.launched[i].attempt < v.launched[j].attempt {
      assert v.launched[i] == w.launched[i] && w.launched[i] in w.launched;
    }
    forall id, l | id in v.ops && BeforeLaunch(v.ops[id]) && l in v.launched ensures l.attempt != v.ops[id].attempt {
      assert l in w.launched || l == launch;
    }
  }

  // ---- events keep it --------------------------------------------------------------------------

  lemma ConnectKeeps(h: Host, s: State, target: Option<string>, now: int)
    requires WorkInv(s.work)
    ensures Inv(Connect(h, s, target, now))
    ensures Connect(h, s, target, now).work == Begun(Superseded(s.work), Probing(s.work.attempt + 1))
  {
    var t := Connect(h, s, target, now);
    SupersededKeeps(s.work);
    BegunKeeps(Superseded(s.work), Probing(s.work.attempt + 1), t.view.phase);
  }

  lemma RetryKeeps(h: Host, s: State, now: int)
    requires WorkInv(s.work) && Idle(s.work)
    ensures Inv(ScheduleRetry(h, s, s.work.attempt, now))
  {
    var due := now + RetryDelay(s.retryAttempt);
    ArmedKeeps(s.work, Retry(s.work.attempt, due), s.view.phase);
  }

  lemma LostKeeps(h: Host, s: State, url: string, detail: Detail, now: int)
    requires WorkInv(s.work)
    ensures Inv(PageLost(h, s, url, detail, now))
  {
    SupersededKeeps(s.work);
    var t := s.(resumeUrl := if h.isServerPage(url, s.server) then Some(url) else s.resumeUrl,
        work := Superseded(s.work));
    RetryKeeps(h, Shown(h, t, Base(h, t, Lost, now).(detail := Some(detail))), now);
  }

  lemma StartKeeps(h: Host, s: State, now: int)
    requires Inv(s)
    ensures Inv(StartServer(h, s, now))
  {
    if CanStart(h, s) {
      SupersededKeeps(s.work);
      var t := s.(work := Superseded(s.work));
      BegunKeeps(t.work, StartProbing(t.work.attempt, s.view.checkout.value), Starting);
    }
  }

  lemma ProbeDoneKeeps(h: Host, s: State, attempt: nat, found: Reachability, now: int)
    requires Inv(s) && (attempt == s.work.attempt ==> Idle(s.work))
    ensures Inv(ProbeDone(h, s, attempt, found, now))
  {
    if attempt == s.work.attempt && s.win && found != Ggo {
      var phase := if s.view.phase == Lost then Lost else Offline;
      var view := Base(h, s, phase, now).(
        conflict := found == Other, detail := if found == Other then Some(OtherAnswers) else None);
      RetryKeeps(h, Shown(h, s, view), now);
    }
  }

  lemma StartProbeDoneKeeps(h: Host, s: State, a: nat, checkout: string, found: Reachability, now: int)
    requires Inv(s) && (a == s.work.attempt ==> Idle(s.work) && s.view.phase == Starting)
    requires forall l :: l in s.work.launched ==> l.attempt != a
    ensures Inv(StartProbeDone(h, s, a, checkout, found, now))
  {
    if a == s.work.attempt && found == Nothing { BegunKeeps(s.work, StartChecking(a, checkout), Starting); }
  }

  lemma StartCheckDoneKeeps(h: Host, s: State, a: nat, checkout: string, busy: bool, now: int)
    requires Inv(s) && (a == s.work.attempt ==> Idle(s.work) && s.view.phase == Starting)
    requires forall l :: l in s.work.launched ==> l.attempt != a
    ensures Inv(StartCheckDone(h, s, a, checkout, busy, now))
  {
    if a == s.work.attempt && !busy {
      LaunchedKeeps(s.work, Launch(a, checkout));
      BegunKeeps(Launched(s.work, Launch(a, checkout)), StartLaunching(a, checkout), Starting);
    }
  }

  lemma LaunchDoneKeeps(h: Host, s: State, a: nat, checkout: string, started: bool, now: int)
    requires Inv(s) && (a == s.work.attempt ==> Idle(s.work) && s.view.phase == Starting)
    ensures Inv(LaunchDone(h, s, a, checkout, started, now))
  {
    if a == s.work.attempt && started { ArmedKeeps(s.work, Poll(a, now + START_TIMEOUT_MS), Starting); }
  }

  lemma PollDoneKeeps(h: Host, s: State, a: nat, deadline: int, found: Reachability, now: int)
    requires Inv(s) && (a == s.work.attempt ==> Idle(s.work) && s.view.phase == Starting)
    ensures Inv(PollDone(h, s, a, deadline, found, now))
  {
    if a == s.work.attempt && found != Ggo && now < deadline { ArmedKeeps(s.work, Poll(a, deadline), Starting); }
  }

  lemma ResumeKeeps(h: Host, s: State, id: nat, o: Outcome, now: int)
    requires Inv(s)
    ensures Inv(Resume(h, s, id, o, now))
  {
    if id in s.work.ops {
      var t := s.(work := Ended(s.work, id));
      EndedKeeps(s.work, id, s.view.phase);
      match s.work.ops[id]
      case Probing(a) => ProbeDoneKeeps(h, t, a, o.found, now);
      case StartProbing(a, checkout) => StartProbeDoneKeeps(h, t, a, checkout, o.found, now);
      case StartChecking(a, checkout) => StartCheckDoneKeeps(h, t, a, checkout, o.busy, now);
      case StartLaunching(a, checkout) => LaunchDoneKeeps(h, t, a, checkout, o.started, now);
      case PollProbing(a, deadline) => PollDoneKeeps(h, t, a, deadline, o.found, now);
    }
  }

  lemma FireKeeps(s: State)
    requires Inv(s)
    ensures Inv(Fire(s))
  {
    if s.work.timer.Some? {
      var timer := s.work.timer.value;
      var w := s.work.(timer := None);
      BegunKeeps(w, if timer.Retry? then Probing(timer.attempt) else PollProbing(timer.attempt, timer.deadline),
          s.view.phase);
    }
  }

  /** A link either leaves scheduling and screen alone or connects. */
  lemma FollowLinkConnects(h: Host, s: State, link: Option<Link>, now: int)
    returns (connects: bool, target: Option<string>)
    ensures connects ==> FollowLink(h, s, link, now) == Connect(h, WithWindow(s), target, now)
    ensures !connects ==> FollowLink(h, s, link, now).work == s.work && FollowLink(h, s, link, now).view == s.view
  {
    var t := WithWindow(s);
    connects, target := !OnConsole(h, t), None;
    if link.None? || (link.value.OpenLink? && link.value.server.Some?
        && !h.sameServer(link.value.server.value, s.server)) {
      connects := !OnConsole(h, t) && !OnConnectPage(h, t);
    } else {
      var thread := if link.value.OpenLink? then link.value.thread else None;
      var ticket := if link.value.OpenLink? then link.value.ticket else Some(link.value.secret);
      if ticket.Some? {
        connects, target := true, Some(h.redeemUrl(s.server, ticket.value, thread));
      } else {
        target := Some(h.consoleUrl(s.server, thread));
      }
    }
  }

  lemma CutOffKeeps(s: State, t: State)
    requires Inv(s) && t.work == Superseded(s.work)
    ensures Inv(t) && Idle(t.work)
  {
    SupersededKeeps(s.work);
    IdleFits(t.work, t.view.phase);
  }

  lemma CrashKeeps(h: Host, s: State, reason: string, now: int)
    requires Inv(s)
    ensures Inv(Crash(h, s, reason, now))
  {
    CutOffKeeps(s, Crash(h, s, reason, now));
  }

  lemma SignInKeeps(h: Host, s: State, now: int)
    requires Inv(s)
    ensures Inv(SignIn(h, s, now))
  {
    CutOffKeeps(s, SignIn(h, s, now));
  }

  lemma NavigatedKeeps(h: Host, s: State, page: string, status: nat, now: int)
    requires Inv(s)
    ensures Inv(Landed(h, s.(url := page), status, now))
  {
    var t := s.(url := page);
    if status >= 500 && h.isServerPage(page, s.server) { LostKeeps(h, t, page, HttpStatus(status), now); }
  }

  lemma ChosenKeeps(h: Host, s: State, dir: string, good: bool, now: int)
    requires Inv(s)
    ensures Inv(Chosen(h, s, dir, good, now))
  {
  }

  /** The events that call connect, whatever the target. */
  lemma ConnectingEvents(h: Host, s: State, e: Timed) returns (connects: bool, from: State, target: Option<string>)
    requires e.event.Open? || e.event.DeepLink? || e.event.RetryNow? || e.event.Back? || e.event.SetServer?
    ensures from.work == s.work && from.view == s.view
    ensures connects ==> Step(h, s, e) == Connect(h, from, target, e.now)
    ensures !connects ==> Step(h, s, e).work == s.work && Step(h, s, e).view == s.view
  {
    connects, from, target := true, s, None;
    match e.event
    case Open => from := WithWindow(s);
    case DeepLink(link) =>
      from := WithWindow(s);
      connects, target := FollowLinkConnects(h, s, link, e.now);
    case RetryNow => target := s.resumeUrl;
    case SetServer(address) =>
      connects := address.Some?;
      if connects { from, target := s.(server := address.value), Some(h.consoleUrl(address.value, None)); }
    case _ => target := Some(h.consoleUrl(s.server, None));
  }

  lemma PageEventKeeps(h: Host, s: State, e: Timed)
    requires Inv(s) && (e.event.PageMoved? || e.event.Navigated? || e.event.FailedLoad?)
    ensures Inv(Step(h, s, e))
  {
    match e.event
    case Navigated(page, status) => if s.win { NavigatedKeeps(h, s, page, status, e.now); }
    case FailedLoad(page, why, mainFrame, aborted) =>
      if s.win && mainFrame && !aborted && h.isServerPage(page, s.server) { LostKeeps(h, s, page, Text(why), e.now); }
    case _ =>
  }

  lemma CutOffEventKeeps(h: Host, s: State, e: Timed)
    requires Inv(s) && (e.event.SignInElsewhere? || e.event.RendererGone? || e.event.Closed? || e.event.Disposed?)
    ensures Inv(Step(h, s, e))
  {
    match e.event
    case SignInElsewhere => SignInKeeps(h, s, e.now);
    case RendererGone(reason, clean) => if s.win && !clean { CrashKeeps(h, s, reason, e.now); }
    case Closed => if s.win { CutOffKeeps(s, Step(h, s, e)); }
    case _ => CutOffKeeps(s, Step(h, s, e));
  }

  lemma ConnectingEventKeeps(h: Host, s: State, e: Timed)
    requires Inv(s) && (e.event.Open? || e.event.DeepLink? || e.event.RetryNow? || e.event.Back? || e.event.SetServer?)
    ensures Inv(Step(h, s, e))
  {
    var connects, from, target := ConnectingEvents(h, s, e);
    if connects { ConnectKeeps(h, from, target, e.now); }
  }

  lemma StepKeeps(h: Host, s: State, e: Timed)
    requires Inv(s)
    ensures Inv(Step(h, s, e))
  {
    match e.event
    case Start => StartKeeps(h, s, e.now);
    case ChooseCheckout(dir, good) => ChosenKeeps(h, s, dir, good, e.now);
    case PageMoved(page, busy) => PageEventKeeps(h, s, e);
    case Navigated(page, status) => PageEventKeeps(h, s, e);
    case FailedLoad(page, why, mainFrame, aborted) => PageEventKeeps(h, s, e);
    case SignInElsewhere => CutOffEventKeeps(h, s, e);
    case RendererGone(reason, clean) => CutOffEventKeeps(h, s, e);
    case Closed => CutOffEventKeeps(h, s, e);
    case Disposed => CutOffEventKeeps(h, s, e);
    case TimerFires => FireKeeps(s);
    case Resumes(id, outcome) => ResumeKeeps(h, s, id, outcome, e.now);
    case _ => ConnectingEventKeeps(h, s, e);
  }

  lemma {:induction false} RunKeeps(h: Host, s: State, events: seq<Timed>)
    requires Inv(s)
    ensures Inv(Run(h, s, events))
    decreases |events|
  {
    if events != [] {
      StepKeeps(h, s, events[0]);
      RunKeeps(h, Step(h, s, events[0]), events[1..]);
    }
  }

  /** Reached by some run of a freshly made controller. */
  ghost predicate Reachable(h: Host, s: State) {
    exists server, dir, at, events :: s == Run(h, Initial(h, server, dir, at), events)
  }

  lemma ReachableKeeps(h: Host, s: State)
    requires Reachable(h, s)
    ensures Inv(s)
  {
    var server, dir, at, events :| s == Run(h, Initial(h, server, dir, at), events);
    RunKeeps(h, Initial(h, server, dir, at), events);
  }

  // ---- the theorems ----------------------------------------------------------------------------

  function LiveOps(w: Work): set<nat> { set id | id in w.ops && w.ops[id].attempt == w.attempt }

  /** In every interleaving, at most one suspended call or pending timer belongs to the current attempt, and a
      pending timer always does. */
  lemma OneLiveActivity(h: Host, s: State)
    requires Reachable(h, s)
    ensures |LiveOps(s.work)| + (if s.work.timer.Some? then 1 else 0) <= 1
    ensures s.work.timer.Some? ==> s.work.timer.value.attempt == s.work.attempt
  {
    ReachableKeeps(h, s);
    var live := LiveOps(s.work);
    if live != {} {
      var id :| id in live;
      assert live == {id};
    }
  }

  /** So a timer that fires always goes on to probe, under the attempt that set it. */
  lemma FiringAlwaysProbes(h: Host, s: State)
    requires Reachable(h, s) && s.work.timer.Some?
    ensures var t := Fire(s);
            t.work.timer.None? && LiveOps(t.work) == {s.work.nextOp}
  {
    ReachableKeeps(h, s);
  }

  /** Superseded once, superseded for good: whatever happens in between, when such a call resumes it only goes away. */
  lemma SupersededCallsAreInert(h: Host, s: State, id: nat, events: seq<Timed>, o: Outcome, now: int)
    requires Reachable(h, s) && id in s.work.ops && s.work.ops[id].attempt != s.work.attempt
    ensures var t := Run(h, s, events);
            id in t.work.ops ==> Resume(h, t, id, o, now) == t.(work := Ended(t.work, id))
  {
    ReachableKeeps(h, s);
    StaysSuperseded(h, s, id, events);
  }

  ghost predicate Stale(w: Work, id: nat) {
    id < w.nextOp && (id in w.ops ==> w.ops[id].attempt < w.attempt)
  }

  /** Attempts and call numbers only grow, and a suspended call never changes. */
  ghost predicate Grows(w: Work, v: Work) {
    && w.attempt <= v.attempt && w.nextOp <= v.nextOp
    && forall id :: id in v.ops && id < w.nextOp ==> id in w.ops && v.ops[id] == w.ops[id]
  }

  lemma ArmedGrows(w: Work, timer: Option<Timer>)
    ensures Grows(w, w.(timer := timer))
  {
  }

  lemma ProbeDoneGrows(h: Host, s: State, a: nat, found: Reachability, now: int)
    ensures Grows(s.work, ProbeDone(h, s, a, found, now).work)
  {
    ArmedGrows(s.work, ProbeDone(h, s, a, found, now).work.timer);
  }

  lemma StartDoneGrows(h: Host, s: State, a: nat, checkout: string, o: Outcome, now: int)
    ensures Grows(s.work, StartProbeDone(h, s, a, checkout, o.found, now).work)
    ensures Grows(s.work, StartCheckDone(h, s, a, checkout, o.busy, now).work)
  {
  }

  lemma LaunchGrows(h: Host, s: State, a: nat, checkout: string, started: bool, now: int)
    ensures Grows(s.work, LaunchDone(h, s, a, checkout, started, now).work)
  {
  }

  lemma PollGrows(h: Host, s: State, a: nat, deadline: int, found: Reachability, now: int)
    ensures Grows(s.work, PollDone(h, s, a, deadline, found, now).work)
  {
  }

  lemma ResumeGrows(h: Host, s: State, id: nat, o: Outcome, now: int)
    ensures Grows(s.work, Resume(h, s, id, o, now).work)
  {
    if id in s.work.ops {
      var t := s.(work := Ended(s.work, id));
      match s.work.ops[id]
      case Probing(a) => ProbeDoneGrows(h, t, a, o.found, now);
      case StartProbing(a, checkout) => StartDoneGrows(h, t, a, checkout, o, now);
      case StartChecking(a, checkout) => StartDoneGrows(h, t, a, checkout, o, now);
      case StartLaunching(a, checkout) => LaunchGrows(h, t, a, checkout, o.started, now);
      case PollProbing(a, deadline) => PollGrows(h, t, a, deadline, o.found, now);
    }
  }

  lemma ConnectGrows(h: Host, s: State, target: Option<string>, now: int)
    ensures Grows(s.work, Connect(h, s, target, now).work)
  {
  }

  lemma SupersededGrows(w: Work)
    ensures Grows(w, Superseded(w))
  {
  }

  lemma LostGrows(h: Host, s: State, url: string, detail: Detail, now: int)
    ensures Grows(s.work, PageLost(h, s, url, detail, now).work)
  {
    SupersededGrows(s.work);
  }

  lemma StartGrows(h: Host, s: State, now: int)
    ensures Grows(s.work, StartServer(h, s, now).work)
  {
    SupersededGrows(s.work);
  }

  lemma CutOffGrows(h: Host, s: State, reason: string, now: int)
    ensures Grows(s.work, Crash(h, s, reason, now).work) && Grows(s.work, SignIn(h, s, now).work)
  {
    SupersededGrows(s.work);
  }

  lemma FireGrows(s: State)
    ensures Grows(s.work, Fire(s).work)
  {
  }

  lemma PageEventGrows(h: Host, s: State, e: Timed)
    requires e.event.PageMoved? || e.event.Navigated? || e.event.FailedLoad?
    ensures Grows(s.work, Step(h, s, e).work)
  {
    match e.event
    case Navigated(page, status) => LostGrows(h, s.(url := page), page, HttpStatus(status), e.now);
    case FailedLoad(page, why, mainFrame, aborted) => LostGrows(h, s, page, Text(why), e.now);
    case _ =>
  }

  lemma CutOffEventGrows(h: Host, s: State, e: Timed)
    requires e.event.SignInElsewhere? || e.event.RendererGone? || e.event.Closed? || e.event.Disposed?
    ensures Grows(s.work, Step(h, s, e).work)
  {
    SupersededGrows(s.work);
    CutOffGrows(h, s, if e.event.RendererGone? then e.event.reason else "", e.now);
  }

  lemma ConnectingEventGrows(h: Host, s: State, e: Timed)
    requires e.event.Open? || e.event.DeepLink? || e.event.RetryNow? || e.event.Back? || e.event.SetServer?
    ensures Grows(s.work, Step(h, s, e).work)
  {
    var connects, from, target := ConnectingEvents(h, s, e);
    if connects { ConnectGrows(h, from, target, e.now); }
  }

  lemma StepGrows(h: Host, s: State, e: Timed)
    ensures Grows(s.work, Step(h, s, e).work)
  {
    match e.event
    case Start => StartGrows(h, s, e.now);
    case ChooseCheckout(dir, good) => ChosenGrows(h, s, dir, good, e.now);
    case PageMoved(page, busy) => PageEventGrows(h, s, e);
    case Navigated(page, status) => PageEventGrows(h, s, e);
    case FailedLoad(page, why, mainFrame, aborted) => PageEventGrows(h, s, e);
    case SignInElsewhere => CutOffEventGrows(h, s, e);
    case RendererGone(reason, clean) => CutOffEventGrows(h, s, e);
    case Closed => CutOffEventGrows(h, s, e);
    case Disposed => CutOffEventGrows(h, s, e);
    case TimerFires => FireGrows(s);
    case Resumes(id, outcome) => ResumeGrows(h, s, id, outcome, e.now);
    case _ => ConnectingEventGrows(h, s, e);
  }

  lemma ChosenGrows(h: Host, s: State, dir: string, good: bool, now: int)
    ensures Grows(s.work, Chosen(h, s, dir, good, now).work)
  {
  }

  lemma {:induction false} StaysSuperseded(h: Host, s: State, id: nat, events: seq<Timed>)
    requires Stale(s.work, id)
    ensures Stale(Run(h, s, events).work, id)
    decreases |events|
  {
    if events != [] {
      StepGrows(h, s, events[0]);
      StaysSuperseded(h, Step(h, s, events[0]), id, events[1..]);
    }
  }

  /** A server is launched at most once per attempt, in attempt order. */
  lemma OneLaunchPerAttempt(h: Host, s: State)
    requires Reachable(h, s)
    ensures forall i, j :: 0 <= i < j < |s.work.launched| ==> s.work.launched[i].attempt < s.work.launched[j].attempt
  {
    ReachableKeeps(h, s);
  }

  /** A suspended port check of the current attempt resumes and finds the port free. */
  predicate FreeCheck(s: State, e: Event) {
    && e.Resumes? && e.id in s.work.ops && s.work.ops[e.id].StartChecking?
    && s.work.ops[e.id].attempt == s.work.attempt && !e.outcome.busy
  }

  /** That, and nothing else, launches a server: for the checkout the click was made for. */
  lemma LaunchesExactlyOnFreeCheck(h: Host, s: State, e: Timed)
    ensures Step(h, s, e).work.launched ==
              if FreeCheck(s, e.event) then s.work.launched + [Launch(s.work.attempt, s.work.ops[e.event.id].checkout)]
              else s.work.launched
  {
    match e.event
    case Start => StartLaunchesNothing(h, s, e.now);
    case ChooseCheckout(dir, good) =>
    case SignInElsewhere =>
    case PageMoved(page, busy) =>
    case Navigated(page, status) => PageEventLaunchesNothing(h, s, e);
    case FailedLoad(page, why, mainFrame, aborted) => PageEventLaunchesNothing(h, s, e);
    case RendererGone(reason, clean) =>
    case Closed =>
    case Disposed =>
    case TimerFires =>
    case Resumes(id, outcome) => ResumeLaunches(h, s, id, outcome, e.now);
    case _ => ConnectingLaunchesNothing(h, s, e);
  }

  lemma PageEventLaunchesNothing(h: Host, s: State, e: Timed)
    requires e.event.Navigated? || e.event.FailedLoad?
    ensures Step(h, s, e).work.launched == s.work.launched
  {
  }

  lemma ConnectingLaunchesNothing(h: Host, s: State, e: Timed)
    requires e.event.Open? || e.event.DeepLink? || e.event.RetryNow? || e.event.Back? || e.event.SetServer?
    ensures Step(h, s, e).work.launched == s.work.launched
  {
    var connects, from, target := ConnectingEvents(h, s, e);
    if connects { ConnectLaunchesNothing(h, from, target, e.now); }
  }

  lemma StartLaunchesNothing(h: Host, s: State, now: int)
    ensures StartServer(h, s, now).work.launched == s.work.launched
  {
  }

  lemma ConnectLaunchesNothing(h: Host, s: State, target: Option<string>, now: int)
    ensures Connect(h, s, target, now).work.launched == s.work.launched
  {
  }

  lemma ResumeLaunches(h: Host, s: State, id: nat, o: Outcome, now: int)
    ensures Resume(h, s, id, o, now).work.launched ==
              if FreeCheck(s, Resumes(id, o)) then s.work.launched + [Launch(s.work.attempt, s.work.ops[id].checkout)]
              else s.work.launched
  {
    if id in s.work.ops {
      var t := s.(work := Ended(s.work, id));
      match s.work.ops[id]
      case Probing(a) => assert ProbeDone(h, t, a, o.found, now).work.launched == t.work.launched;
      case StartProbing(a, checkout) =>
        assert StartProbeDone(h, t, a, checkout, o.found, now).work.launched == t.work.launched;
      case StartChecking(a, checkout) =>
      case StartLaunching(a, checkout) =>
        assert LaunchDone(h, t, a, checkout, o.started, now).work.launched == t.work.launched;
      case PollProbing(a, deadline) =>
        assert PollDone(h, t, a, deadline, o.found, now).work.launched == t.work.launched;
    }
  }

  /** A second click on Start while one start is under way does nothing, at any stage of it. */
  lemma StartingTwiceIsNothing(h: Host, s: State, now: int)
    requires Reachable(h, s)
    requires (exists id :: id in LiveOps(s.work) && !s.work.ops[id].Probing?)
        || (s.work.timer.Some? && s.work.timer.value.Poll?)
    ensures Step(h, s, Timed(Start, now)) == s
  {
    ReachableKeeps(h, s);
  }

  /** Events that reach a controller whose window is gone: only its own leftovers. */
  predicate Leftover(e: Event) {
    e.TimerFires? || e.Resumes? || e.PageMoved? || e.Navigated? || e.FailedLoad? || e.RendererGone?
  }

  /** Closing the window ends everything in flight: no view, page, timer or launch follows from it. */
  lemma {:induction false} ClosedIsQuiet(h: Host, s: State, leftovers: seq<Timed>)
    requires !s.win && Idle(s.work) && forall e :: e in leftovers ==> Leftover(e.event)
    ensures var t := Run(h, s, leftovers);
            t == s.(work := t.work) && t.work == s.work.(ops := t.work.ops) && t.work.ops.Keys <= s.work.ops.Keys
    decreases |leftovers|
  {
    if leftovers != [] {
      assert leftovers[0] in leftovers;
      var t := Step(h, s, leftovers[0]);
      ClosedIsQuiet(h, t, leftovers[1..]);
    }
  }

  lemma ClosingIsQuiet(h: Host, s: State, now: int, leftovers: seq<Timed>)
    requires Reachable(h, s) && s.win && forall e :: e in leftovers ==> Leftover(e.event)
    ensures var closed := Step(h, s, Timed(Closed, now));
            var t := Run(h, closed, leftovers);
            t == closed.(work := t.work) && t.work.launched == s.work.launched && t.work.timer.None?
  {
    ReachableKeeps(h, s);
    SupersededKeeps(s.work);
    ClosedIsQuiet(h, Step(h, s, Timed(Closed, now)), leftovers);
  }

  // ---- retrying --------------------------------------------------------------------------------

  /** A window is open and the newest suspended call is a live probe. */
  ghost predicate AwaitingProbe(s: State) {
    s.win && s.work.nextOp >= 1 && s.work.nextOp - 1 in s.work.ops && s.work.timer.None?
    && s.work.ops[s.work.nextOp - 1] == Probing(s.work.attempt)
  }

  /** That probe resumes without finding GGO. */
  function Fail(h: Host, s: State, found: Reachability, now: int): State
    requires s.work.nextOp >= 1
  {
    Resume(h, s, s.work.nextOp - 1, Outcome(found, false, false), now)
  }

  /** Failed probes in a row, each followed by its timer. */
  function Failures(h: Host, s: State, rounds: seq<(Reachability, int)>): State
    decreases |rounds|
  {
    if rounds == [] || s.work.nextOp == 0 then s
    else Failures(h, Fire(Fail(h, s, rounds[0].0, rounds[0].1)), rounds[1..])
  }

  lemma FailSchedules(h: Host, s: State, found: Reachability, now: int)
    requires AwaitingProbe(s) && found != Ggo
    ensures var t := Fail(h, s, found, now);
            && t.work.timer == Some(Retry(s.work.attempt, now + RetryDelay(s.retryAttempt)))
            && t.view.retryAt == Some(now + RetryDelay(s.retryAttempt))
            && t.retryAttempt == s.retryAttempt + 1 && AwaitingProbe(Fire(t))
  {
  }

  lemma {:induction false} FailuresCount(h: Host, s: State, rounds: seq<(Reachability, int)>)
    requires AwaitingProbe(s) && forall r :: r in rounds ==> r.0 != Ggo
    ensures AwaitingProbe(Failures(h, s, rounds)) && Failures(h, s, rounds).retryAttempt == s.retryAttempt + |rounds|
    decreases |rounds|
  {
    if rounds != [] {
      assert rounds[0] in rounds;
      FailSchedules(h, s, rounds[0].0, rounds[0].1);
      FailuresCount(h, Fire(Fail(h, s, rounds[0].0, rounds[0].1)), rounds[1..]);
    }
  }

  /** After connecting and n failed probes, the next one that fails waits the n-th listed delay, the last repeating,
      and the screen shows exactly that moment. */
  lemma RetriesBackOff(h: Host, s: State, target: Option<string>, at: int, rounds: seq<(Reachability, int)>,
          found: Reachability, now: int)
    requires s.win && found != Ggo && forall r :: r in rounds ==> r.0 != Ggo
    ensures var t := Failures(h, Connect(h, s, target, at), rounds);
            t.work.nextOp >= 1 && WaitsItsTurn(h, t, |rounds|, found, now)
  {
    var begun := Connect(h, s, target, at);
    ConnectAwaits(h, s, target, at);
    BackOffFrom(h, begun, rounds, Failures(h, begun, rounds), found, now);
  }

  lemma BackOffFrom(h: Host, s: State, rounds: seq<(Reachability, int)>, t: State, found: Reachability, now: int)
    requires AwaitingProbe(s) && s.retryAttempt == 0 && found != Ggo && forall r :: r in rounds ==> r.0 != Ggo
    requires t == Failures(h, s, rounds)
    ensures AwaitingProbe(t) && WaitsItsTurn(h, t, |rounds|, found, now)
  {
    assert AwaitingProbe(t) && t.retryAttempt == |rounds| by { FailuresCount(h, s, rounds); }
    NextWait(h, t, |rounds|, found, now);
  }

  /** A probe that fails now, after so many failures, waits the listed delay and shows when it ends. */
  ghost predicate WaitsItsTurn(h: Host, s: State, failed: nat, found: Reachability, now: int)
    requires s.work.nextOp >= 1
  {
    var t := Fail(h, s, found, now);
    var due := now + [1500, 3000, 5000, 8000, 12000, 15000][if failed < 5 then failed else 5];
    t.view.retryAt == Some(due) && t.work.timer == Some(Retry(s.work.attempt, due))
  }

  lemma NextWait(h: Host, s: State, failed: nat, found: Reachability, now: int)
    requires AwaitingProbe(s) && s.retryAttempt == failed && found != Ggo
    ensures WaitsItsTurn(h, s, failed, found, now)
  {
    FailSchedules(h, s, found, now);
  }

  lemma ConnectAwaits(h: Host, s: State, target: Option<string>, at: int)
    requires s.win
    ensures AwaitingProbe(Connect(h, s, target, at)) && Connect(h, s, target, at).retryAttempt == 0
  {
  }
}
