/** What the window is given to show: the console exactly when a probe finds it, the connection screen otherwise,
    and never an outdated one (desktop/src/controller.ts). */
module ControllerScreen {
  import opened Collections
  import opened ControllerSpec
  import opened ControllerTheorems

  // ---- what a step may put on the screen -------------------------------------------------------

  /** Of the pages loaded since, all are the connection screen. */
  ghost predicate LoadsNoConsole(h: Host, s: State, t: State) {
    s.sent <= t.sent && forall k :: |s.sent| <= k < |t.sent| && t.sent[k].Load? ==> t.sent[k] == Load(h.connectPage)
  }

  ghost predicate LoadsConnectPage(h: Host, s: State, t: State) {
    exists k :: |s.sent| <= k < |t.sent| && t.sent[k] == Load(h.connectPage)
  }

  /** If what an open window should show has changed, it was pushed last, or the connection screen is loading. */
  ghost predicate UpToDate(h: Host, s: State, t: State) {
    t.view != s.view && t.win ==>
      if OnConnectPage(h, t) then |t.sent| > |s.sent| && t.sent[|t.sent| - 1] == Push(t.view)
      else LoadsConnectPage(h, s, t)
  }

  /** The screen says of its address and checkout what is so: whether the address is local, and the checkout's port
      exactly when it is configured for another one than the address names. */
  ghost predicate Fits(h: Host, v: View) {
    && v.local == h.isLocal(v.server) && v.nodeFound == h.hasNode
    && (v.checkoutPort.Some? ==> v.checkout.Some? && h.checkoutPort(v.checkout.value) == v.checkoutPort)
    && (v.checkout.Some? && h.checkoutPort(v.checkout.value).Some? ==>
          (v.checkoutPort.None? <==> h.checkoutPort(v.checkout.value).value == h.urlPort(v.server)))
  }

  /** A new phase is dated now, and the moment of a retry is shown only with that retry scheduled. */
  ghost predicate IsDated(s: State, t: State, now: int) {
    && (t.view.phase != s.view.phase ==> t.view.since == now)
    && (t.view != s.view && t.view.retryAt.Some? ==>
          t.work.timer.Some? && t.work.timer.value.Retry? && t.work.timer.value.due == t.view.retryAt.value)
  }

  /** No console page, a screen that is never outdated, dated, and true if it was. */
  ghost predicate Behaves(h: Host, s: State, t: State, now: int) {
    LoadsNoConsole(h, s, t) && UpToDate(h, s, t) && IsDated(s, t, now) && (Fits(h, s.view) ==> Fits(h, t.view))
  }

  lemma FreshFits(h: Host, server: string, dir: Option<string>, phase: Phase, now: int)
    ensures Fits(h, FreshView(h, server, dir, phase, now))
  {
  }

  ghost predicate IsNew(s: State, view: View, now: int) {
    view.server == s.server && view.retryAt.None? && (view.phase != s.view.phase ==> view.since == now)
  }

  lemma BaseFits(h: Host, s: State, phase: Phase, now: int)
    ensures Fits(h, s.view) ==> Fits(h, Base(h, s, phase, now))
    ensures IsNew(s, Base(h, s, phase, now), now)
  {
    FreshFits(h, s.server, s.checkoutDir, phase, now);
  }

  lemma ShownBehaves(h: Host, s: State, view: View, now: int)
    requires IsNew(s, view, now) && (Fits(h, s.view) ==> Fits(h, view))
    ensures Behaves(h, s, Shown(h, s, view), now)
    ensures s.win && !OnConnectPage(h, s) ==> LoadsConnectPage(h, s, Shown(h, s, view))
  {
    var t := Shown(h, s, view);
    if s.win && !OnConnectPage(h, s) { assert t.sent[|s.sent|] == Load(h.connectPage); }
  }

  /** The moment of the next retry goes on the screen too. */
  lemma RetryBehaves(h: Host, s: State, view: View, attempt: nat, now: int)
    requires IsNew(s, view, now) && (Fits(h, s.view) ==> Fits(h, view))
    ensures Behaves(h, s, ScheduleRetry(h, Shown(h, s, view), attempt, now), now)
  {
    var t := Shown(h, s, view);
    ShownBehaves(h, s, view, now);
    var u := ScheduleRetry(h, t, attempt, now);
    if LoadsConnectPage(h, s, t) {
      var k :| |s.sent| <= k < |t.sent| && t.sent[k] == Load(h.connectPage);
      assert u.sent[k] == Load(h.connectPage);
    }
  }

  lemma ConnectBehaves(h: Host, s: State, target: Option<string>, now: int)
    ensures Behaves(h, s, Connect(h, s, target, now), now)
  {
    var resume := if target.Some? then target
                  else if s.resumeUrl.Some? then s.resumeUrl
                  else Some(h.consoleUrl(s.server, None));
    var t := s.(resumeUrl := resume, retryAttempt := 0, work := Superseded(s.work));
    if !OnConsole(h, t) { ConnectShows(h, t, if t.view.phase == Lost then Lost else Connecting, now); }
  }

  lemma ConnectShows(h: Host, s: State, phase: Phase, now: int)
    ensures Behaves(h, s, Shown(h, s, Base(h, s, phase, now)), now)
  {
    BaseFits(h, s, phase, now);
    ShownBehaves(h, s, Base(h, s, phase, now), now);
  }

  lemma LostBehaves(h: Host, s: State, url: string, detail: Detail, now: int)
    ensures Behaves(h, s, PageLost(h, s, url, detail, now), now)
  {
    var t := s.(resumeUrl := if h.isServerPage(url, s.server) then Some(url) else s.resumeUrl,
        work := Superseded(s.work));
    BaseFits(h, t, Lost, now);
    RetryBehaves(h, t, Base(h, t, Lost, now).(detail := Some(detail)), t.work.attempt, now);
  }

  lemma ProbeBehaves(h: Host, s: State, a: nat, found: Reachability, now: int)
    requires !(a == s.work.attempt && s.win && found == Ggo)
    ensures Behaves(h, s, ProbeDone(h, s, a, found, now), now)
  {
    if a == s.work.attempt && s.win {
      var phase := if s.view.phase == Lost then Lost else Offline;
      BaseFits(h, s, phase, now);
      RetryBehaves(h, s, Base(h, s, phase, now).(
        conflict := found == Other, detail := if found == Other then Some(OtherAnswers) else None), a, now);
    }
  }

  lemma StartBehaves(h: Host, s: State, now: int)
    ensures Behaves(h, s, StartServer(h, s, now), now)
  {
    var t := s.(work := Superseded(s.work));
    BaseFits(h, t, Starting, now);
    ShownBehaves(h, t, Base(h, t, Starting, now), now);
  }

  lemma CheckBehaves(h: Host, s: State, a: nat, checkout: string, o: Outcome, now: int)
    ensures a != s.work.attempt || o.found != Ggo ==>
              Behaves(h, s, StartProbeDone(h, s, a, checkout, o.found, now), now)
    ensures Behaves(h, s, StartCheckDone(h, s, a, checkout, o.busy, now), now)
  {
    BaseFits(h, s, Offline, now);
    ShownBehaves(h, s, Base(h, s, Offline, now).(conflict := true, detail := Some(PortTaken)), now);
  }

  lemma LaunchBehaves(h: Host, s: State, a: nat, checkout: string, started: bool, now: int)
    ensures Behaves(h, s, LaunchDone(h, s, a, checkout, started, now), now)
  {
    BaseFits(h, s, Offline, now);
    BaseFits(h, s, Starting, now);
    if started {
      ShownBehaves(h, s, Base(h, s, Starting, now).(logPath := Some(h.logPath(checkout))), now);
    } else {
      ShownBehaves(h, s, Base(h, s, Offline, now).(detail := Some(CouldNotStart)), now);
    }
  }

  lemma PollBehaves(h: Host, s: State, a: nat, deadline: int, found: Reachability, now: int)
    requires a != s.work.attempt || found != Ggo
    ensures Behaves(h, s, PollDone(h, s, a, deadline, found, now), now)
  {
    BaseFits(h, s, Offline, now);
    ShownBehaves(h, s, Base(h, s, Offline, now).(detail := Some(NoAnswer)), now);
  }

  lemma CrashBehaves(h: Host, s: State, reason: string, now: int)
    ensures Behaves(h, s, Crash(h, s, reason, now), now)
  {
    var t := s.(resumeUrl := if h.isServerPage(s.url, s.server) then Some(s.url) else s.resumeUrl,
        work := Superseded(s.work));
    BaseFits(h, t, Crashed, now);
    ShownBehaves(h, t, Base(h, t, Crashed, now).(detail := Some(Text(reason))), now);
  }

  lemma SignInBehaves(h: Host, s: State, now: int)
    ensures Behaves(h, s, SignIn(h, s, now), now)
  {
    var t := s.(resumeUrl := Some(h.consoleUrl(s.server, None)), work := Superseded(s.work));
    BaseFits(h, t, BrowserSignIn, now);
    ShownBehaves(h, t, Base(h, t, BrowserSignIn, now), now);
  }

  lemma ChosenBehaves(h: Host, s: State, dir: string, good: bool, now: int)
    ensures Behaves(h, s, Chosen(h, s, dir, good, now), now)
  {
    var t := s.(checkoutDir := Some(dir));
    BaseFits(h, s, s.view.phase, now);
    BaseFits(h, t, t.view.phase, now);
    if good {
      ShownBehaves(h, t, Base(h, t, t.view.phase, now).(
        checkout := Some(dir), checkoutPort := Mismatch(h, Some(dir), s.server), detail := None, logPath := None), now);
    } else {
      ShownBehaves(h, s, Base(h, s, s.view.phase, now).(detail := Some(NotACheckout)), now);
    }
  }

  lemma LinkBehaves(h: Host, s: State, link: Option<Link>, now: int)
    ensures Behaves(h, s, FollowLink(h, s, link, now), now)
  {
    var connects, target := FollowLinkConnects(h, s, link, now);
    if connects { ConnectBehaves(h, WithWindow(s), target, now); } else { QuietLink(h, s, link, now); }
  }

  lemma QuietLink(h: Host, s: State, link: Option<Link>, now: int)
    requires FollowLink(h, s, link, now).view == s.view && FollowLink(h, s, link, now).work == s.work
    ensures LoadsNoConsole(h, s, FollowLink(h, s, link, now))
  {
    ConnectSupersedes(h, WithWindow(s), now);
  }

  lemma ConnectSupersedes(h: Host, s: State, now: int)
    ensures forall target :: Connect(h, s, target, now).work != s.work
  {
  }

  // ---- the console is loaded exactly when it is found ------------------------------------------

  /** A suspended probe of the current attempt resumes and finds GGO; the plain one needs a window. */
  predicate FindsConsole(s: State, e: Event) {
    && e.Resumes? && e.id in s.work.ops && s.work.ops[e.id].attempt == s.work.attempt && e.outcome.found == Ggo
    && (s.work.ops[e.id].StartProbing? || s.work.ops[e.id].PollProbing? || (s.work.ops[e.id].Probing? && s.win))
  }

  /** The page, if it is on this server, else the console's root. */
  function PageOnServer(h: Host, server: string, page: Option<string>): string {
    if page.Some? && h.isServerPage(page.value, server) then page.value else h.consoleUrl(server, None)
  }

  lemma ResumeBehaves(h: Host, s: State, id: nat, o: Outcome, now: int)
    requires id in s.work.ops
    ensures var t := s.(work := Ended(s.work, id));
            if FindsConsole(s, Resumes(id, o)) then Resume(h, s, id, o, now) == LoadConsole(h, t)
            else Behaves(h, t, Resume(h, s, id, o, now), now)
  {
    var t := s.(work := Ended(s.work, id));
    if !FindsConsole(s, Resumes(id, o)) {
      match s.work.ops[id]
      case Probing(a) => ProbeBehaves(h, t, a, o.found, now);
      case StartProbing(a, checkout) => CheckBehaves(h, t, a, checkout, o, now);
      case StartChecking(a, checkout) => CheckBehaves(h, t, a, checkout, o, now);
      case StartLaunching(a, checkout) => LaunchBehaves(h, t, a, checkout, o.started, now);
      case PollProbing(a, deadline) => PollBehaves(h, t, a, deadline, o.found, now);
    }
  }

  lemma ConnectingBehaves(h: Host, s: State, e: Timed)
    requires e.event.Open? || e.event.RetryNow? || e.event.Back? || e.event.SetServer?
    ensures Behaves(h, s, Step(h, s, e), e.now)
  {
    match e.event
    case Open => ConnectBehaves(h, WithWindow(s), None, e.now);
    case RetryNow => ConnectBehaves(h, s, s.resumeUrl, e.now);
    case SetServer(address) =>
      if address.Some? {
        ConnectBehaves(h, s.(server := address.value), Some(h.consoleUrl(address.value, None)), e.now);
      }
    case _ => ConnectBehaves(h, s, Some(h.consoleUrl(s.server, None)), e.now);
  }

  lemma PageEventBehaves(h: Host, s: State, e: Timed)
    requires e.event.Navigated? || e.event.FailedLoad?
    ensures Behaves(h, s, Step(h, s, e), e.now)
  {
    match e.event
    case Navigated(page, status) => LostBehaves(h, s.(url := page), page, HttpStatus(status), e.now);
    case FailedLoad(page, why, _, _) => LostBehaves(h, s, page, Text(why), e.now);
  }

  lemma StepBehaves(h: Host, s: State, e: Timed)
    requires !FindsConsole(s, e.event)
    ensures Behaves(h, s, Step(h, s, e), e.now)
  {
    match e.event
    case DeepLink(link) => LinkBehaves(h, s, link, e.now);
    case Start => StartBehaves(h, s, e.now);
    case ChooseCheckout(dir, good) => ChosenBehaves(h, s, dir, good, e.now);
    case SignInElsewhere => SignInBehaves(h, s, e.now);
    case RendererGone(reason, clean) => CrashBehaves(h, s, reason, e.now);
    case Navigated(page, status) => PageEventBehaves(h, s, e);
    case FailedLoad(page, why, mainFrame, aborted) => PageEventBehaves(h, s, e);
    case Resumes(id, outcome) => if id in s.work.ops { ResumeBehaves(h, s, id, outcome, e.now); }
    case PageMoved(_, _) =>
    case Closed =>
    case Disposed =>
    case TimerFires =>
    case _ => ConnectingBehaves(h, s, e);
  }

  lemma FoundLoads(h: Host, s: State, e: Timed)
    requires FindsConsole(s, e.event)
    ensures var t := Step(h, s, e);
            && t.sent == s.sent + (if s.win then [Load(PageOnServer(h, s.server, s.resumeUrl))] else [])
            && (s.win ==> t.loading) && t.view == s.view && t.work.timer.None?
            && t.resumeUrl.None? && t.retryAttempt == 0
  {
    ResumeBehaves(h, s, e.event.id, e.event.outcome, e.now);
  }

  /** One page, the one to resume if it is on this server and its root otherwise, is loaded when a current probe
      finds the console. Nothing else loads any page but the connection screen, and after anything else an open
      window shows what it should, each phase with its date and each retry with its moment. */
  lemma ConsoleLoadsExactlyWhenFound(h: Host, s: State, e: Timed)
    ensures var t := Step(h, s, e);
            if FindsConsole(s, e.event) then
              && t.sent == s.sent + (if s.win then [Load(PageOnServer(h, s.server, s.resumeUrl))] else [])
              && (s.win ==> t.loading) && t.view == s.view && t.work.timer.None?
              && t.resumeUrl.None? && t.retryAttempt == 0
            else LoadsNoConsole(h, s, t) && UpToDate(h, s, t) && IsDated(s, t, e.now)
  {
    if FindsConsole(s, e.event) { FoundLoads(h, s, e); } else { StepBehaves(h, s, e); }
  }

  /** A live page of this server, loaded to its end, stays on screen while connecting probes; any other window shows
      at once that it is connecting, or that its page is lost. */
  lemma ConnectingPaintsUnlessLive(h: Host, s: State, target: Option<string>, now: int)
    ensures var t := Connect(h, s, target, now);
            if s.win && h.isServerPage(s.url, s.server) && !s.loading then
              t.view == s.view && t.sent == s.sent && t.loading == s.loading
            else
              && t.view.phase == (if s.view.phase == Lost then Lost else Connecting) && t.view.server == s.server
              && (s.win && h.isAppPage(s.url) ==> t.sent == s.sent + [Push(t.view)] && t.loading == s.loading)
              && (s.win && !h.isAppPage(s.url) ==> t.sent == s.sent + [Load(h.connectPage)] && t.loading)
              && (!s.win ==> t.sent == s.sent)
  {
  }

  // ---- the page asked for is the page shown ----------------------------------------------------

  lemma {:induction false} FailuresKeepTheTarget(h: Host, s: State, rounds: seq<(Reachability, int)>)
    requires AwaitingProbe(s) && forall r :: r in rounds ==> r.0 != Ggo
    ensures var t := Failures(h, s, rounds);
            AwaitingProbe(t) && t.resumeUrl == s.resumeUrl && t.server == s.server
    decreases |rounds|
  {
    if rounds != [] {
      assert rounds[0] in rounds;
      FailSchedules(h, s, rounds[0].0, rounds[0].1);
      FailuresKeepTheTarget(h, Fire(Fail(h, s, rounds[0].0, rounds[0].1)), rounds[1..]);
    }
  }

  /** After connecting, and however many probes failed meanwhile, the probe that finds the server loads the page
      connecting was for, else the one to resume, else the console's root. */
  lemma ConnectingLandsOnItsPage(h: Host, s: State, target: Option<string>, at: int, rounds: seq<(Reachability, int)>,
          now: int)
    requires s.win && forall r :: r in rounds ==> r.0 != Ggo
    ensures var t := Failures(h, Connect(h, s, target, at), rounds);
            t.work.nextOp >= 1
            && Fail(h, t, Ggo, now).sent == t.sent +
                  [Load(PageOnServer(h, s.server, if target.Some? then target else s.resumeUrl))]
  {
    var c := Connect(h, s, target, at);
    ConnectAwaits(h, s, target, at);
    FoundAtLast(h, c, rounds, now);
    assert PageOnServer(h, c.server, c.resumeUrl) ==
           PageOnServer(h, s.server, if target.Some? then target else s.resumeUrl);
  }

  lemma FoundAtLast(h: Host, s: State, rounds: seq<(Reachability, int)>, now: int)
    requires AwaitingProbe(s) && forall r :: r in rounds ==> r.0 != Ggo
    ensures var t := Failures(h, s, rounds);
            t.work.nextOp >= 1
            && Fail(h, t, Ggo, now).sent == t.sent + [Load(PageOnServer(h, s.server, s.resumeUrl))]
  {
    FailuresKeepTheTarget(h, s, rounds);
    AwaitedLoads(h, Failures(h, s, rounds), now);
  }

  lemma AwaitedLoads(h: Host, s: State, now: int)
    requires AwaitingProbe(s)
    ensures Fail(h, s, Ggo, now).sent == s.sent + [Load(PageOnServer(h, s.server, s.resumeUrl))]
  {
    FoundLoads(h, s, Timed(Resumes(s.work.nextOp - 1, Outcome(Ggo, false, false)), now));
  }

  /** A page of this server that stopped loading is the one loaded when the server answers again. */
  lemma LostPageComesBack(h: Host, s: State, page: string, detail: Detail, at: int, rounds: seq<(Reachability, int)>,
          now: int)
    requires s.win && h.isServerPage(page, s.server) && forall r :: r in rounds ==> r.0 != Ggo
    ensures var lost := PageLost(h, s, page, detail, at);
            var t := Failures(h, Fire(lost), rounds);
            lost.view.phase == Lost && lost.view.detail == Some(detail) && t.work.nextOp >= 1
            && Fail(h, t, Ggo, now).sent == t.sent + [Load(page)]
  {
    LossAwaits(h, s, page, detail, at);
    FoundAtLast(h, Fire(PageLost(h, s, page, detail, at)), rounds, now);
  }

  lemma LossAwaits(h: Host, s: State, page: string, detail: Detail, at: int)
    requires s.win && h.isServerPage(page, s.server)
    ensures var lost := PageLost(h, s, page, detail, at);
            && lost.view.phase == Lost && lost.view.detail == Some(detail)
            && AwaitingProbe(Fire(lost)) && Fire(lost).resumeUrl == Some(page) && Fire(lost).server == s.server
  {
  }

  // ---- the screen is true ----------------------------------------------------------------------

  lemma {:induction false} RunFits(h: Host, s: State, events: seq<Timed>)
    requires Fits(h, s.view)
    ensures Fits(h, Run(h, s, events).view)
    decreases |events|
  {
    if events != [] {
      if FindsConsole(s, events[0].event) { FoundLoads(h, s, events[0]); } else { StepBehaves(h, s, events[0]); }
      RunFits(h, Step(h, s, events[0]), events[1..]);
    }
  }

  lemma ScreenIsTrue(h: Host, s: State)
    requires Reachable(h, s)
    ensures Fits(h, s.view)
  {
    var server, dir, at, events :| s == Run(h, Initial(h, server, dir, at), events);
    FreshFits(h, server, dir, Connecting, at);
    RunFits(h, Initial(h, server, dir, at), events);
  }

  /** Start does something only for a local address with a checkout configured for its port, or for none, on a
      machine with Node, and not while a start is under way; then it supersedes what was in flight and probes. */
  lemma StartNeedsItsConditions(h: Host, s: State, now: int)
    requires Reachable(h, s)
    ensures var t := Step(h, s, Timed(Start, now));
            var v := s.view;
            if v.local && v.checkout.Some? && v.nodeFound && v.checkoutPort.None? && v.phase != Starting then
              && h.isLocal(v.server) && h.hasNode
              && (h.checkoutPort(v.checkout.value).Some? ==>
                    h.checkoutPort(v.checkout.value) == Some(h.urlPort(v.server)))
              && t.work == Begun(Superseded(s.work), StartProbing(s.work.attempt + 1, v.checkout.value))
              && t.view.phase == Starting
            else t == s
  {
    ScreenIsTrue(h, s);
  }

  /** A launched server is polled until three minutes after its launch, then the screen gives up on it. */
  lemma StartGivesUpInTime(h: Host, s: State, checkout: string, deadline: int, found: Reachability, now: int)
    requires found != Ggo
    ensures LaunchDone(h, s, s.work.attempt, checkout, true, now).work.timer == Some(Poll(s.work.attempt, now + 180000))
    ensures var t := PollDone(h, s, s.work.attempt, deadline, found, now);
            if now < deadline then t == s.(work := Armed(s.work, Poll(s.work.attempt, deadline)))
            else t.work == s.work && t.view.phase == Offline && t.view.detail == Some(NoAnswer)
  {
  }

  /** A probe that does not find the console says so: another program there, or nothing; lost pages stay lost. */
  lemma FailedProbeSaysWhy(h: Host, s: State, found: Reachability, now: int)
    requires AwaitingProbe(s) && found != Ggo
    ensures var v := Fail(h, s, found, now).view;
            && v.phase == (if s.view.phase == Lost then Lost else Offline) && v.server == s.server
            && (v.conflict <==> found == Other) && (v.detail == if found == Other then Some(OtherAnswers) else None)
  {
  }

  // ---- what the screen says, and where it leads ------------------------------------------------

  /** The page is to come back: the attempt before is over, and a retry is scheduled. */
  ghost predicate LosesPage(s: State, t: State, page: string, detail: Detail) {
    && t.view.phase == Lost && t.view.detail == Some(detail) && t.resumeUrl == Some(page)
    && t.work.attempt == s.work.attempt + 1 && t.work.timer.Some? && t.work.timer.value.Retry?
    && t.work.ops == s.work.ops
  }

  /** A page of this server that answers with a server error or whose main frame fails is lost, and no other is; a
      renderer that dies is a crash, with the page it showed to return to. */
  lemma PagesAreLostExactly(h: Host, s: State, e: Timed)
    ensures var t := Step(h, s, e);
            match e.event
            case Navigated(page, status) =>
              if s.win && status >= 500 && h.isServerPage(page, s.server) then LosesPage(s, t, page, HttpStatus(status))
              else t == if s.win then s.(url := page) else s
            case FailedLoad(page, why, mainFrame, aborted) =>
              if s.win && mainFrame && !aborted && h.isServerPage(page, s.server) then LosesPage(s, t, page, Text(why))
              else t == s
            case RendererGone(reason, clean) =>
              if s.win && !clean then
                && t.view.phase == Crashed && t.view.detail == Some(Text(reason)) && t.work == Superseded(s.work)
                && t.resumeUrl == (if h.isServerPage(s.url, s.server) then Some(s.url) else s.resumeUrl)
              else t == s
            case SignInElsewhere =>
              && t.view.phase == BrowserSignIn && t.work == Superseded(s.work)
              && t.resumeUrl == Some(h.consoleUrl(s.server, None))
            case _ => true
  {
    match e.event
    case Navigated(page, status) => if h.isServerPage(page, s.server) {
      PageLostLoses(h, s.(url := page), page, HttpStatus(status), e.now);
    }
    case FailedLoad(page, why, _, _) => if h.isServerPage(page, s.server) {
      PageLostLoses(h, s, page, Text(why), e.now);
    }
    case RendererGone(reason, clean) => CrashSays(h, s, reason, e.now);
    case SignInElsewhere => SignInSays(h, s, e.now);
    case _ =>
  }

  lemma PageLostLoses(h: Host, s: State, page: string, detail: Detail, now: int)
    requires h.isServerPage(page, s.server)
    ensures LosesPage(s, PageLost(h, s, page, detail, now), page, detail)
  {
  }

  lemma CrashSays(h: Host, s: State, reason: string, now: int)
    ensures var t := Crash(h, s, reason, now);
            && t.view.phase == Crashed && t.view.detail == Some(Text(reason)) && t.work == Superseded(s.work)
            && t.resumeUrl == if h.isServerPage(s.url, s.server) then Some(s.url) else s.resumeUrl
  {
  }

  lemma SignInSays(h: Host, s: State, now: int)
    ensures var t := SignIn(h, s, now);
            && t.view.phase == BrowserSignIn && t.work == Superseded(s.work)
            && t.resumeUrl == Some(h.consoleUrl(s.server, None))
  {
  }

  /** A folder chosen is shown and remembered if it is a checkout; else the screen says it is not one. */
  lemma ChoiceIsShown(h: Host, s: State, dir: string, good: bool, now: int)
    ensures var t := Step(h, s, Timed(ChooseCheckout(dir, good), now));
            && t.view.phase == s.view.phase && t.view.server == s.server && t.work == s.work
            && (good ==> t.checkoutDir == Some(dir) && t.view.checkout == Some(dir)
                         && t.view.detail.None? && t.view.logPath.None?)
            && (!good ==> t.checkoutDir == s.checkoutDir && t.view.detail == Some(NotACheckout))
  {
  }

  ghost predicate GivesUp(s: State, t: State, conflict: bool, detail: Detail) {
    && t.view.phase == Offline && t.view.detail == Some(detail) && (conflict ==> t.view.conflict)
    && t.work == s.work && t.resumeUrl == s.resumeUrl
  }

  /** The stages of a start: a port another program holds or a server that will not start end it and say why; a free
      port is checked, then launched; a launched one shows where its log is. */
  lemma StartSaysHowItWent(h: Host, s: State, id: nat, o: Outcome, now: int)
    requires id in s.work.ops && s.work.ops[id].attempt == s.work.attempt && o.found != Ggo
    ensures var ended, t := s.(work := Ended(s.work, id)), Resume(h, s, id, o, now);
            match s.work.ops[id]
            case StartProbing(a, checkout) =>
              if o.found == Other then GivesUp(ended, t, true, PortTaken)
              else t == ended.(work := Begun(ended.work, StartChecking(a, checkout)))
            case StartChecking(a, checkout) =>
              if o.busy then GivesUp(ended, t, true, PortTaken)
              else t.view == s.view && t.work.ops[s.work.nextOp] == StartLaunching(a, checkout)
            case StartLaunching(a, checkout) =>
              if !o.started then GivesUp(ended, t, false, CouldNotStart)
              else t.view.phase == Starting && t.view.logPath == Some(h.logPath(checkout))
            case _ => true
  {
  }

  /** Connecting for a page: it is the one to resume, a new attempt probes, and no failure is counted yet. */
  ghost predicate ConnectsFor(s: State, t: State, page: string) {
    && t.resumeUrl == Some(page) && t.retryAttempt == 0
    && t.work == Begun(Superseded(s.work), Probing(s.work.attempt + 1))
  }

  /** Where each request leads: back to the page to resume, to the console's root, or to the new address. */
  lemma RequestsLead(h: Host, s: State, e: Timed)
    ensures var t := Step(h, s, e);
            var resumed := if s.resumeUrl.Some? then s.resumeUrl.value else h.consoleUrl(s.server, None);
            match e.event
            case Open => t.win && ConnectsFor(s, t, resumed)
            case RetryNow => ConnectsFor(s, t, resumed)
            case Back => ConnectsFor(s, t, h.consoleUrl(s.server, None))
            case SetServer(address) =>
              if address.None? then t == s
              else t.server == address.value && ConnectsFor(s, t, h.consoleUrl(address.value, None))
            case _ => true
  {
  }

  /** A link for this server signs in with its ticket, or opens its task, on the live console if there is one; any
      other link only makes sure there is something to see. */
  lemma LinksLead(h: Host, s: State, link: Option<Link>, now: int)
    ensures var t := Step(h, s, Timed(DeepLink(link), now));
            var readable := link.Some? && (link.value.AuthLink? || link.value.server.None?
                || h.sameServer(link.value.server.value, s.server));
            var live := OnConsole(h, WithWindow(s));
            && t.win
            && (!readable && (live || OnConnectPage(h, WithWindow(s))) ==> t == WithWindow(s))
            && (!readable && !live && !OnConnectPage(h, WithWindow(s)) ==>
                  ConnectsFor(s, t, if s.resumeUrl.Some? then s.resumeUrl.value else h.consoleUrl(s.server, None)))
            && (readable && link.value.AuthLink? ==> ConnectsFor(s, t, h.redeemUrl(s.server, link.value.secret, None)))
            && (readable && link.value.OpenLink? ==> OpensLink(h, s, t, link.value.ticket, link.value.thread, live))
  {
    if link.Some? && link.value.OpenLink?
       && (link.value.server.None? || h.sameServer(link.value.server.value, s.server)) {
      OpenLinkOpens(h, s, link.value.server, link.value.ticket, link.value.thread, now);
    } else {
      var secret := if link.Some? && link.value.AuthLink? then Some(link.value.secret) else None;
      var target := if secret.Some? then Some(h.redeemUrl(s.server, secret.value, None)) else None;
      ConnectLeads(h, WithWindow(s), target, now);
    }
  }

  lemma OpenLinkOpens(h: Host, s: State, server: Option<string>, ticket: Option<string>, thread: Option<string>,
          now: int)
    requires server.None? || h.sameServer(server.value, s.server)
    ensures var t := FollowLink(h, s, Some(OpenLink(server, ticket, thread)), now);
            t.win && OpensLink(h, s, t, ticket, thread, OnConsole(h, WithWindow(s)))
  {
    if ticket.Some? {
      ConnectLeads(h, WithWindow(s), Some(h.redeemUrl(s.server, ticket.value, thread)), now);
    } else if !OnConsole(h, WithWindow(s)) {
      ConnectLeads(h, WithWindow(s), Some(h.consoleUrl(s.server, thread)), now);
    } else {
      assert s.sent + [] == s.sent;
    }
  }

  lemma ConnectLeads(h: Host, s: State, target: Option<string>, now: int)
    ensures Connect(h, s, target, now).win == s.win
    ensures ConnectsFor(s, Connect(h, s, target, now),
                if target.Some? then target.value
                else if s.resumeUrl.Some? then s.resumeUrl.value
                else h.consoleUrl(s.server, None))
  {
  }

  ghost predicate OpensLink(h: Host, s: State, t: State, ticket: Option<string>, thread: Option<string>, live: bool) {
    if ticket.Some? then ConnectsFor(s, t, h.redeemUrl(s.server, ticket.value, thread))
    else if !live then ConnectsFor(s, t, h.consoleUrl(s.server, thread))
    else t == WithWindow(s).(sent := s.sent + (if thread.Some? then [OpenThread(thread.value)] else []))
  }
}
