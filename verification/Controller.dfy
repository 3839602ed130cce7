/** The desktop app's connection controller as the app keeps it (desktop/src/controller.ts). */
module Controller {
  import opened Collections
  import opened ControllerSpec
  import opened ControllerTheorems

  class DesktopController {
    const host: Host
    var win: bool
    var url: string
    var loading: bool
    var server: string
    var checkoutDir: Option<string>
    var view: View
    var resumeUrl: Option<string>
    var timer: Option<Timer>
    var retryAttempt: nat
    var attempt: nat
    /** Calls suspended at an `await`, and what was sent to the window and launched so far. */
    var ops: map<nat, Op>
    var nextOp: nat
    ghost var sent: seq<Output>
    ghost var launched: seq<Launch>

    ghost function Abs(): State
      reads this
    {
      State(Work(attempt, timer, ops, nextOp, launched), view, resumeUrl, retryAttempt, server, checkoutDir, win, url,
          loading, sent)
    }

    ghost predicate Valid() reads this { Inv(Abs()) }

    constructor (host: Host, server: string, checkoutDir: Option<string>, now: int)
      ensures Valid() && this.host == host && Abs() == Initial(host, server, checkoutDir, now)
    {
      this.host, this.server, this.checkoutDir := host, server, checkoutDir;
      win, url, loading := false, "", false;
      view := FreshView(host, server, checkoutDir, Connecting, now);
      resumeUrl, timer, retryAttempt, attempt, ops, nextOp := None, None, 0, 0, map[], 0;
      sent, launched := [], [];
    }

    // ---- scheduling ----------------------------------------------------------------------------

    method Supersede() returns (current: nat)
      modifies this`timer, this`attempt
      ensures Abs() == old(Abs()).(work := Superseded(old(Abs().work))) && current == attempt
    {
      timer := None;
      attempt := attempt + 1;
      current := attempt;
    }

    /** A call reaches its `await` and is suspended. */
    method Suspend(op: Op)
      modifies this`ops, this`nextOp
      ensures Abs() == old(Abs()).(work := Begun(old(Abs().work), op))
    {
      ops := ops[nextOp := op];
      nextOp := nextOp + 1;
    }

    // ---- the connection screen -----------------------------------------------------------------

    method PushView()
      modifies this`sent
      ensures Abs() == Pushed(host, old(Abs()))
    {
      if win && host.isAppPage(url) { sent := sent + [Push(view)]; }
    }

    method LoadUrl(target: string)
      modifies this`sent, this`loading
      ensures Abs() == Loaded(old(Abs()), target)
    {
      loading := true;
      sent := sent + [Load(target)];
    }

    method Show(next: View)
      modifies this`view, this`sent, this`loading
      ensures Abs() == Shown(host, old(Abs()), next)
    {
      view := next;
      if win {
        if host.isAppPage(url) { PushView(); } else { LoadUrl(host.connectPage); }
      }
    }

    function BaseView(phase: Phase, now: int): (r: View)
      reads this
      ensures r == Base(host, Abs(), phase, now)
    {
      if phase == view.phase && view.server == server then view.(retryAt := None)
      else FreshView(host, server, checkoutDir, phase, now)
    }

    // ---- connecting ----------------------------------------------------------------------------

    method ConnectTo(target: Option<string>, now: int)
      modifies this
      ensures Abs() == Connect(host, old(Abs()), target, now)
    {
      resumeUrl := if target.Some? then target
                   else if resumeUrl.Some? then resumeUrl
                   else Some(host.consoleUrl(server, None));
      retryAttempt := 0;
      var current := Supersede();
      ShowConnecting(now);
      Suspend(Probing(current));
    }

    /** From a live console page, probe quietly; elsewhere paint the local screen first. */
    method ShowConnecting(now: int)
      modifies this`view, this`sent, this`loading
      ensures var s := old(Abs());
              Abs() == if OnConsole(host, s) then s
                       else Shown(host, s, Base(host, s, if s.view.phase == Lost then Lost else Connecting, now))
    {
      if !(win && host.isServerPage(url, server) && !loading) {
        Show(BaseView(if view.phase == Lost then Lost else Connecting, now));
      }
    }

    method LoadTheConsole()
      modifies this
      ensures Abs() == LoadConsole(host, old(Abs()))
    {
      timer := None;
      var target := if resumeUrl.Some? && host.isServerPage(resumeUrl.value, server) then resumeUrl.value
                    else host.consoleUrl(server, None);
      resumeUrl := None;
      retryAttempt := 0;
      if win { LoadUrl(target); }
    }

    method ScheduleARetry(captured: nat, now: int)
      modifies this
      ensures Abs() == ScheduleRetry(host, old(Abs()), captured, now)
    {
      var due := now + RetryDelay(retryAttempt);
      retryAttempt := retryAttempt + 1;
      view := view.(retryAt := Some(due));
      PushView();
      timer := Some(Retry(captured, due));
    }

    /** The rest of probe, once the answer is in. */
    method AfterProbe(captured: nat, found: Reachability, now: int)
      modifies this
      ensures Abs() == ProbeDone(host, old(Abs()), captured, found, now)
    {
      if captured != attempt || !win { return; }
      if found == Ggo { LoadTheConsole(); return; }
      var phase := if view.phase == Lost then Lost else Offline;
      Show(BaseView(phase, now).(
        conflict := found == Other, detail := if found == Other then Some(OtherAnswers) else None));
      ScheduleARetry(captured, now);
    }

    method LoseThePage(page: string, detail: Detail, now: int)
      modifies this
      ensures Abs() == PageLost(host, old(Abs()), page, detail, now)
    {
      if host.isServerPage(page, server) { resumeUrl := Some(page); }
      var current := Supersede();
      Show(BaseView(Lost, now).(detail := Some(detail)));
      ScheduleARetry(current, now);
    }

    // ---- starting a server ---------------------------------------------------------------------

    method OnStart(now: int)
      requires Valid()
      modifies this
      ensures Valid() && Abs() == Step(host, old(Abs()), Timed(Start, now))
    {
      StepKeeps(host, Abs(), Timed(Start, now));
      var checkout := view.checkout;
      if !view.local || checkout.None? || !host.hasNode || view.checkoutPort.Some? || view.phase == Starting { return; }
      var current := Supersede();
      Show(BaseView(Starting, now));
      Suspend(StartProbing(current, checkout.value));
    }

    method ReportPortTaken(now: int)
      modifies this
      ensures Abs() == PortIsTaken(host, old(Abs()), now)
    {
      Show(BaseView(Offline, now).(conflict := true, detail := Some(PortTaken)));
    }

    method AfterStartProbe(captured: nat, checkout: string, found: Reachability, now: int)
      modifies this
      ensures Abs() == StartProbeDone(host, old(Abs()), captured, checkout, found, now)
    {
      if captured != attempt { return; }
      if found == Ggo { LoadTheConsole(); return; }
      if found == Other { ReportPortTaken(now); return; }
      Suspend(StartChecking(captured, checkout));
    }

    method AfterPortCheck(captured: nat, checkout: string, busy: bool, now: int)
      modifies this
      ensures Abs() == StartCheckDone(host, old(Abs()), captured, checkout, busy, now)
    {
      if captured != attempt { return; }
      if busy { ReportPortTaken(now); return; }
      launched := launched + [Launch(captured, checkout)];
      Suspend(StartLaunching(captured, checkout));
    }

    method AfterLaunch(captured: nat, checkout: string, started: bool, now: int)
      modifies this
      ensures Abs() == LaunchDone(host, old(Abs()), captured, checkout, started, now)
    {
      if captured != attempt { return; }
      if !started {
        Show(BaseView(Offline, now).(detail := Some(CouldNotStart)));
        return;
      }
      Show(BaseView(Starting, now).(logPath := Some(host.logPath(checkout))));
      timer := Some(Poll(captured, now + START_TIMEOUT_MS));
    }

    method AfterPoll(captured: nat, deadline: int, found: Reachability, now: int)
      modifies this
      ensures Abs() == PollDone(host, old(Abs()), captured, deadline, found, now)
    {
      if captured != attempt { return; }
      if found == Ggo { LoadTheConsole(); return; }
      if now < deadline { timer := Some(Poll(captured, deadline)); return; }
      Show(BaseView(Offline, now).(detail := Some(NoAnswer)));
    }

    // ---- what the event loop runs --------------------------------------------------------------

    method OnResume(id: nat, o: Outcome, now: int)
      requires Valid()
      modifies this
      ensures Valid() && Abs() == Step(host, old(Abs()), Timed(Resumes(id, o), now))
    {
      StepKeeps(host, Abs(), Timed(Resumes(id, o), now));
      ResumeCall(id, o, now);
    }

    method ResumeCall(id: nat, o: Outcome, now: int)
      modifies this
      ensures Abs() == Step(host, old(Abs()), Timed(Resumes(id, o), now))
    {
      if id !in ops { return; }
      var op := ops[id];
      ops := ops - {id};
      match op
      case Probing(a) => AfterProbe(a, o.found, now);
      case StartProbing(a, checkout) => AfterStartProbe(a, checkout, o.found, now);
      case StartChecking(a, checkout) => AfterPortCheck(a, checkout, o.busy, now);
      case StartLaunching(a, checkout) => AfterLaunch(a, checkout, o.started, now);
      case PollProbing(a, deadline) => AfterPoll(a, deadline, o.found, now);
    }

    /** A pending timer always belongs to the current attempt, so firing always probes. */
    method OnTimer(now: int)
      requires Valid()
      modifies this
      ensures Valid() && Abs() == Step(host, old(Abs()), Timed(TimerFires, now))
      ensures old(timer).Some? ==>
                nextOp == old(nextOp) + 1 && old(nextOp) in ops && ops[old(nextOp)].attempt == attempt
    {
      FireKeeps(Abs());
      if timer.None? { return; }
      var fired := timer.value;
      timer := None;
      if fired.attempt != attempt { return; }
      Suspend(if fired.Retry? then Probing(fired.attempt) else PollProbing(fired.attempt, fired.deadline));
    }

    method OpenWindow(now: int)
      requires Valid()
      modifies this
      ensures Valid() && Abs() == Step(host, old(Abs()), Timed(Open, now))
    {
      StepKeeps(host, Abs(), Timed(Open, now));
      if !win { win, url, loading := true, "", false; }
      ConnectTo(None, now);
    }

    method OnRetry(now: int)
      requires Valid()
      modifies this
      ensures Valid() && Abs() == Step(host, old(Abs()), Timed(RetryNow, now))
    {
      StepKeeps(host, Abs(), Timed(RetryNow, now));
      ConnectTo(resumeUrl, now);
    }

    method OnBack(now: int)
      requires Valid()
      modifies this
      ensures Valid() && Abs() == Step(host, old(Abs()), Timed(Back, now))
    {
      StepKeeps(host, Abs(), Timed(Back, now));
      ConnectTo(Some(host.consoleUrl(server, None)), now);
    }

    method OnSetServer(address: Option<string>, now: int) returns (ok: bool)
      requires Valid()
      modifies this
      ensures Valid() && Abs() == Step(host, old(Abs()), Timed(SetServer(address), now)) && ok == address.Some?
    {
      StepKeeps(host, Abs(), Timed(SetServer(address), now));
      ok := address.Some?;
      if ok {
        server := address.value;
        ConnectTo(Some(host.consoleUrl(server, None)), now);
      }
    }

    method OnChooseCheckout(dir: string, good: bool, now: int)
      requires Valid()
      modifies this
      ensures Valid() && Abs() == Step(host, old(Abs()), Timed(ChooseCheckout(dir, good), now))
    {
      StepKeeps(host, Abs(), Timed(ChooseCheckout(dir, good), now));
      if !good {
        Show(BaseView(view.phase, now).(detail := Some(NotACheckout)));
        return;
      }
      checkoutDir := Some(dir);
      Show(BaseView(view.phase, now).(
        checkout := Some(dir), checkoutPort := Mismatch(host, Some(dir), server), detail := None, logPath := None));
    }

    method OnDeepLink(link: Option<Link>, now: int)
      requires Valid()
      modifies this
      ensures Valid() && Abs() == Step(host, old(Abs()), Timed(DeepLink(link), now))
    {
      StepKeeps(host, Abs(), Timed(DeepLink(link), now));
      HandleDeepLink(link, now);
    }

    method HandleDeepLink(link: Option<Link>, now: int)
      modifies this
      ensures Abs() == FollowLink(host, old(Abs()), link, now)
    {
      if !win { win, url, loading := true, "", false; }
      var onConsole := win && host.isServerPage(url, server) && !loading;
      if link.None? || (link.value.OpenLink? && link.value.server.Some?
          && !host.sameServer(link.value.server.value, server)) {
        if !onConsole && !host.isAppPage(url) { ConnectTo(None, now); }
        return;
      }
      var thread := if link.value.OpenLink? then link.value.thread else None;
      var ticket := if link.value.OpenLink? then link.value.ticket else Some(link.value.secret);
      if ticket.Some? {
        ConnectTo(Some(host.redeemUrl(server, ticket.value, thread)), now);
      } else if thread.Some? && onConsole {
        sent := sent + [OpenThread(thread.value)];
      } else if !onConsole {
        ConnectTo(Some(host.consoleUrl(server, thread)), now);
      }
    }

    method OnSignIn(now: int)
      requires Valid()
      modifies this
      ensures Valid() && Abs() == Step(host, old(Abs()), Timed(SignInElsewhere, now))
    {
      SignInKeeps(host, Abs(), now);
      BeginBrowserSignIn(now);
    }

    method BeginBrowserSignIn(now: int)
      modifies this
      ensures Abs() == SignIn(host, old(Abs()), now)
    {
      resumeUrl := Some(host.consoleUrl(server, None));
      var _ := Supersede();
      Show(BaseView(BrowserSignIn, now));
    }

    method OnNavigated(page: string, status: nat, now: int)
      requires Valid() && win
      modifies this
      ensures Valid() && Abs() == Step(host, old(Abs()), Timed(Navigated(page, status), now))
    {
      StepKeeps(host, Abs(), Timed(Navigated(page, status), now));
      url := page;
      if status >= 500 && host.isServerPage(page, server) { LoseThePage(page, HttpStatus(status), now); }
    }

    method OnFailedLoad(page: string, why: string, mainFrame: bool, aborted: bool, now: int)
      requires Valid() && win
      modifies this
      ensures Valid() && Abs() == Step(host, old(Abs()), Timed(FailedLoad(page, why, mainFrame, aborted), now))
    {
      StepKeeps(host, Abs(), Timed(FailedLoad(page, why, mainFrame, aborted), now));
      if mainFrame && !aborted && host.isServerPage(page, server) { LoseThePage(page, Text(why), now); }
    }

    method OnRendererGone(reason: string, clean: bool, now: int)
      requires Valid() && win
      modifies this
      ensures Valid() && Abs() == Step(host, old(Abs()), Timed(RendererGone(reason, clean), now))
    {
      CrashKeeps(host, Abs(), reason, now);
      if !clean { ShowCrash(reason, now); }
    }

    method ShowCrash(reason: string, now: int)
      modifies this
      ensures Abs() == Crash(host, old(Abs()), reason, now)
    {
      if host.isServerPage(url, server) { resumeUrl := Some(url); }
      var _ := Supersede();
      Show(BaseView(Crashed, now).(detail := Some(Text(reason))));
    }

    method Dispose()
      requires Valid()
      modifies this`timer, this`attempt
      ensures Valid() && Abs() == Step(host, old(Abs()), Timed(Disposed, 0)) && Idle(Abs().work)
    {
      CutOffKeeps(Abs(), Abs().(work := Superseded(Abs().work)));
      var _ := Supersede();
    }

    /** Once the window has closed, nothing is scheduled any more. */
    method OnClosed(now: int)
      requires Valid() && win
      modifies this`win, this`timer, this`attempt
      ensures Valid() && Abs() == Step(host, old(Abs()), Timed(Closed, now)) && Idle(Abs().work)
    {
      CutOffKeeps(Abs(), Abs().(win := false, work := Superseded(Abs().work)));
      win := false;
      var _ := Supersede();
    }
  }
}
