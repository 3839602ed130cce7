/** The desktop app's connection controller (desktop/src/controller.ts) as a function of its state. Awaited
    work that has not resumed yet is kept in `ops`; it may resume in any order, after anything else. */
module ControllerSpec {
  import opened Collections

  const RETRY_DELAYS_MS := [1500, 3000, 5000, 8000, 12000, 15000]
  const START_POLL_MS := 1000
  const START_TIMEOUT_MS := 180000

  datatype Phase = Connecting | Offline | Starting | Lost | Crashed | BrowserSignIn
  datatype Reachability = Ggo | Other | Nothing
  datatype Detail =
    | OtherAnswers | PortTaken | CouldNotStart | NoAnswer | NotACheckout
    | HttpStatus(code: nat)
    | Text(text: string)

  datatype View = View(
    phase: Phase, server: string, local: bool, checkout: Option<string>, checkoutPort: Option<nat>, nodeFound: bool,
    conflict: bool, detail: Option<Detail>, logPath: Option<string>, retryAt: Option<int>, since: int
  )

  /** What the controller asks of its address helpers and of this machine. */
  datatype Host = Host(
    isServerPage: (string, string) -> bool,
    isAppPage: string -> bool,
    sameServer: (string, string) -> bool,
    consoleUrl: (string, Option<string>) -> string,
    redeemUrl: (string, string, Option<string>) -> string,
    isLocal: string -> bool,
    findCheckout: Option<string> -> Option<string>,
    checkoutPort: string -> Option<nat>,
    urlPort: string -> nat,
    logPath: string -> string,
    hasNode: bool,
    connectPage: string
  )

  /** An async function suspended at an `await`, with the attempt it captured. */
  datatype Op =
    | Probing(attempt: nat)
    | StartProbing(attempt: nat, checkout: string)
    | StartChecking(attempt: nat, checkout: string)
    | StartLaunching(attempt: nat, checkout: string)
    | PollProbing(attempt: nat, deadline: int)

  datatype Timer = Retry(attempt: nat, due: int) | Poll(attempt: nat, deadline: int)
  datatype Launch = Launch(attempt: nat, checkout: string)

  /** The attempt counter and everything scheduled under it. */
  datatype Work = Work(attempt: nat, timer: Option<Timer>, ops: map<nat, Op>, nextOp: nat, launched: seq<Launch>)

  datatype Output = Load(url: string) | Push(view: View) | OpenThread(thread: string)

  datatype State = State(
    work: Work, view: View, resumeUrl: Option<string>, retryAttempt: nat, server: string, checkoutDir: Option<string>,
    win: bool, url: string, loading: bool, sent: seq<Output>
  )

  function Initial(h: Host, server: string, checkoutDir: Option<string>, now: int): State {
    State(Work(0, None, map[], 0, []), FreshView(h, server, checkoutDir, Connecting, now), None, 0, server, checkoutDir,
          false, "", false, [])
  }

  // ---- scheduling ------------------------------------------------------------------------------

  function Superseded(w: Work): Work { w.(timer := None, attempt := w.attempt + 1) }
  function Begun(w: Work, op: Op): Work { w.(ops := w.ops[w.nextOp := op], nextOp := w.nextOp + 1) }
  function Ended(w: Work, id: nat): Work { w.(ops := w.ops - {id}) }
  function Armed(w: Work, timer: Timer): Work { w.(timer := Some(timer)) }
  function Launched(w: Work, launch: Launch): Work { w.(launched := w.launched + [launch]) }

  // ---- the connection screen -------------------------------------------------------------------

  /** The port of a found checkout, when it is not the one the address names. */
  function Mismatch(h: Host, checkout: Option<string>, server: string): Option<nat> {
    if checkout.None? then None
    else
      var port := h.checkoutPort(checkout.value);
      if port.Some? && port.value != h.urlPort(server) then port else None
  }

  function FreshView(h: Host, server: string, checkoutDir: Option<string>, phase: Phase, now: int): View {
    var checkout := if h.isLocal(server) then h.findCheckout(checkoutDir) else None;
    View(phase, server, h.isLocal(server), checkout, Mismatch(h, checkout, server), h.hasNode, false, None, None, None,
        now)
  }

  predicate OnConnectPage(h: Host, s: State) { s.win && h.isAppPage(s.url) }
  predicate OnConsole(h: Host, s: State) { s.win && h.isServerPage(s.url, s.server) && !s.loading }

  function Base(h: Host, s: State, phase: Phase, now: int): View {
    if phase == s.view.phase && s.view.server == s.server then s.view.(retryAt := None)
    else FreshView(h, s.server, s.checkoutDir, phase, now)
  }

  function Pushed(h: Host, s: State): State {
    if OnConnectPage(h, s) then s.(sent := s.sent + [Push(s.view)]) else s
  }

  function Loaded(s: State, url: string): State { s.(loading := true, sent := s.sent + [Load(url)]) }

  function Shown(h: Host, s: State, view: View): State {
    var t := s.(view := view);
    if !s.win then t else if OnConnectPage(h, s) then Pushed(h, t) else Loaded(t, h.connectPage)
  }

  // ---- connecting ------------------------------------------------------------------------------

  function Connect(h: Host, s: State, target: Option<string>, now: int): State {
    var resume := if target.Some? then target
                  else if s.resumeUrl.Some? then s.resumeUrl
                  else Some(h.consoleUrl(s.server, None));
    var t := s.(resumeUrl := resume, retryAttempt := 0, work := Superseded(s.work));
    var u := if OnConsole(h, t) then t
             else Shown(h, t, Base(h, t, if t.view.phase == Lost then Lost else Connecting, now));
    u.(work := Begun(u.work, Probing(u.work.attempt)))
  }

  function LoadConsole(h: Host, s: State): State {
    var target := if s.resumeUrl.Some? && h.isServerPage(s.resumeUrl.value, s.server) then s.resumeUrl.value
                  else h.consoleUrl(s.server, None);
    var t := s.(work := s.work.(timer := None), resumeUrl := None, retryAttempt := 0);
    if s.win then Loaded(t, target) else t
  }

  function RetryDelay(retries: nat): int { RETRY_DELAYS_MS[if retries < 5 then retries else 5] }

  function ScheduleRetry(h: Host, s: State, attempt: nat, now: int): State {
    var due := now + RetryDelay(s.retryAttempt);
    var t := Pushed(h, s.(retryAttempt := s.retryAttempt + 1, view := s.view.(retryAt := Some(due))));
    t.(work := Armed(t.work, Retry(attempt, due)))
  }

  function ProbeDone(h: Host, s: State, attempt: nat, found: Reachability, now: int): State {
    if attempt != s.work.attempt || !s.win then s
    else if found == Ggo then LoadConsole(h, s)
    else
      var phase := if s.view.phase == Lost then Lost else Offline;
      var view := Base(h, s, phase, now).(
        conflict := found == Other, detail := if found == Other then Some(OtherAnswers) else None);
      ScheduleRetry(h, Shown(h, s, view), attempt, now)
  }

  function PageLost(h: Host, s: State, url: string, detail: Detail, now: int): State {
    var t := s.(resumeUrl := if h.isServerPage(url, s.server) then Some(url) else s.resumeUrl,
        work := Superseded(s.work));
    ScheduleRetry(h, Shown(h, t, Base(h, t, Lost, now).(detail := Some(detail))), t.work.attempt, now)
  }

  // ---- starting a server -----------------------------------------------------------------------

  predicate CanStart(h: Host, s: State) {
    s.view.local && s.view.checkout.Some? && h.hasNode && s.view.checkoutPort.None? && s.view.phase != Starting
  }

  function StartServer(h: Host, s: State, now: int): State {
    if !CanStart(h, s) then s
    else
      var t := s.(work := Superseded(s.work));
      var u := Shown(h, t, Base(h, t, Starting, now));
      u.(work := Begun(u.work, StartProbing(u.work.attempt, s.view.checkout.value)))
  }

  function PortIsTaken(h: Host, s: State, now: int): State {
    Shown(h, s, Base(h, s, Offline, now).(conflict := true, detail := Some(PortTaken)))
  }

  function StartProbeDone(h: Host, s: State, attempt: nat, checkout: string, found: Reachability, now: int): State {
    if attempt != s.work.attempt then s
    else match found
      case Ggo => LoadConsole(h, s)
      case Other => PortIsTaken(h, s, now)
      case Nothing => s.(work := Begun(s.work, StartChecking(attempt, checkout)))
  }

  function StartCheckDone(h: Host, s: State, attempt: nat, checkout: string, busy: bool, now: int): State {
    if attempt != s.work.attempt then s
    else if busy then PortIsTaken(h, s, now)
    else s.(work := Begun(Launched(s.work, Launch(attempt, checkout)), StartLaunching(attempt, checkout)))
  }

  function LaunchDone(h: Host, s: State, attempt: nat, checkout: string, started: bool, now: int): State {
    if attempt != s.work.attempt then s
    else if !started then Shown(h, s, Base(h, s, Offline, now).(detail := Some(CouldNotStart)))
    else
      var t := Shown(h, s, Base(h, s, Starting, now).(logPath := Some(h.logPath(checkout))));
      t.(work := Armed(t.work, Poll(attempt, now + START_TIMEOUT_MS)))
  }

  function PollDone(h: Host, s: State, attempt: nat, deadline: int, found: Reachability, now: int): State {
    if attempt != s.work.attempt then s
    else if found == Ggo then LoadConsole(h, s)
    else if now < deadline then s.(work := Armed(s.work, Poll(attempt, deadline)))
    else Shown(h, s, Base(h, s, Offline, now).(detail := Some(NoAnswer)))
  }

  // ---- events ----------------------------------------------------------------------------------

  /** What a suspended call is handed when it resumes; it reads the part it awaited. */
  datatype Outcome = Outcome(found: Reachability, busy: bool, started: bool)

  datatype Link =
    | OpenLink(server: Option<string>, ticket: Option<string>, thread: Option<string>)
    | AuthLink(secret: string)

  datatype Event =
    | Open
    | DeepLink(link: Option<Link>)
    | RetryNow
    | Back
    | Start
    | SetServer(address: Option<string>)
    | ChooseCheckout(dir: string, good: bool)
    | SignInElsewhere
    | PageMoved(page: string, busy: bool)
    | Navigated(page: string, status: nat)
    | FailedLoad(page: string, why: string, mainFrame: bool, aborted: bool)
    | RendererGone(reason: string, clean: bool)
    | Closed
    | Disposed
    | TimerFires
    | Resumes(id: nat, outcome: Outcome)

  datatype Timed = Timed(event: Event, now: int)

  function Resume(h: Host, s: State, id: nat, o: Outcome, now: int): State {
    if id !in s.work.ops then s
    else
      var t := s.(work := Ended(s.work, id));
      match s.work.ops[id]
      case Probing(a) => ProbeDone(h, t, a, o.found, now)
      case StartProbing(a, checkout) => StartProbeDone(h, t, a, checkout, o.found, now)
      case StartChecking(a, checkout) => StartCheckDone(h, t, a, checkout, o.busy, now)
      case StartLaunching(a, checkout) => LaunchDone(h, t, a, checkout, o.started, now)
      case PollProbing(a, deadline) => PollDone(h, t, a, deadline, o.found, now)
  }

  function Fire(s: State): State {
    if s.work.timer.None? then s
    else
      var timer := s.work.timer.value;
      var t := s.(work := s.work.(timer := None));
      if timer.attempt != s.work.attempt then t
      else t.(work := Begun(t.work, if timer.Retry? then Probing(timer.attempt)
          else PollProbing(timer.attempt, timer.deadline)))
  }

  function WithWindow(s: State): State { if s.win then s else s.(win := true, url := "", loading := false) }

  function FollowLink(h: Host, s: State, link: Option<Link>, now: int): State {
    var t := WithWindow(s);
    if link.None? || (link.value.OpenLink? && link.value.server.Some?
        && !h.sameServer(link.value.server.value, s.server)) then
      if !OnConsole(h, t) && !OnConnectPage(h, t) then Connect(h, t, None, now) else t
    else
      var thread := if link.value.OpenLink? then link.value.thread else None;
      var ticket := if link.value.OpenLink? then link.value.ticket else Some(link.value.secret);
      if ticket.Some? then Connect(h, t, Some(h.redeemUrl(s.server, ticket.value, thread)), now)
      else if thread.Some? && OnConsole(h, t) then t.(sent := t.sent + [OpenThread(thread.value)])
      else if !OnConsole(h, t) then Connect(h, t, Some(h.consoleUrl(s.server, thread)), now)
      else t
  }

  function Chosen(h: Host, s: State, dir: string, good: bool, now: int): State {
    if !good then Shown(h, s, Base(h, s, s.view.phase, now).(detail := Some(NotACheckout)))
    else
      var t := s.(checkoutDir := Some(dir));
      Shown(h, t, Base(h, t, t.view.phase, now).(
        checkout := Some(dir), checkoutPort := Mismatch(h, Some(dir), s.server), detail := None, logPath := None))
  }

  function Crash(h: Host, s: State, reason: string, now: int): State {
    var t := s.(resumeUrl := if h.isServerPage(s.url, s.server) then Some(s.url) else s.resumeUrl,
        work := Superseded(s.work));
    Shown(h, t, Base(h, t, Crashed, now).(detail := Some(Text(reason))))
  }

  function SignIn(h: Host, s: State, now: int): State {
    var t := s.(resumeUrl := Some(h.consoleUrl(s.server, None)), work := Superseded(s.work));
    Shown(h, t, Base(h, t, BrowserSignIn, now))
  }

  function Landed(h: Host, s: State, status: nat, now: int): State {
    if status >= 500 && h.isServerPage(s.url, s.server) then PageLost(h, s, s.url, HttpStatus(status), now) else s
  }

  function SetAddress(h: Host, s: State, url: string, now: int): State {
    Connect(h, s.(server := url), Some(h.consoleUrl(url, None)), now)
  }

  function Step(h: Host, s: State, e: Timed): State {
    var now := e.now;
    match e.event
    case Open => Connect(h, WithWindow(s), None, now)
    case DeepLink(link) => FollowLink(h, s, link, now)
    case RetryNow => Connect(h, s, s.resumeUrl, now)
    case Back => Connect(h, s, Some(h.consoleUrl(s.server, None)), now)
    case Start => StartServer(h, s, now)
    case SetServer(address) => if address.None? then s else SetAddress(h, s, address.value, now)
    case ChooseCheckout(dir, good) => Chosen(h, s, dir, good, now)
    case SignInElsewhere => SignIn(h, s, now)
    case PageMoved(page, busy) => if s.win then s.(url := page, loading := busy) else s
    case Navigated(page, status) => if s.win then Landed(h, s.(url := page), status, now) else s
    case FailedLoad(page, why, mainFrame, aborted) =>
      if s.win && mainFrame && !aborted && h.isServerPage(page, s.server) then PageLost(h, s, page, Text(why), now)
      else s
    case RendererGone(reason, clean) => if s.win && !clean then Crash(h, s, reason, now) else s
    case Closed => if s.win then s.(win := false, work := Superseded(s.work)) else s
    case Disposed => s.(work := Superseded(s.work))
    case TimerFires => Fire(s)
    case Resumes(id, outcome) => Resume(h, s, id, outcome, now)
  }

  function Run(h: Host, s: State, events: seq<Timed>): State
    decreases |events|
  {
    if events == [] then s else Run(h, Step(h, s, events[0]), events[1..])
  }
}
