/** The processing screen: after an upload that needs review it polls the
    server for the task stored under `processing_task_id` until the video is
    approved or rejected. The auth token and the server's answer are
    parameters; the interval timer is modelled by the `polling` flag, and
    each firing of the interval is one call of the check. */
module ProcessingStatus {
  import opened JsText
  import opened TaskStorage

  datatype Status = Pending | Success | Rejected

  /** What the status request produced: an answer with the server's `status`
      and `message` fields, or a thrown error. */
  datatype ServerReply = Answer(status: string, message: Option<string>) | Thrown

  datatype NoticeKind = SuccessNotice | ErrorNotice
  datatype Notice = Notice(text: string, kind: NoticeKind)

  const ProcessingMessage := "Your video is being processed..."
  const ApprovedMessage := "Your video has been processed successfully!"
  const GuidelinesMessage := "Your video was rejected because it does not meet our educational content guidelines."
  const ErrorMessage := "An error occurred while processing your video. Please try again."

  /** The state one check reads and writes: the shown status and message,
      whether the interval is running, and the stored task id. */
  datatype PollState = PollState(status: Status, message: string, polling: bool, taskId: Option<string>)

  /** What one check did: the new state, the notification shown, and whether
      the screen will redirect home after its delay. */
  datatype CheckOutcome = CheckOutcome(next: PollState, notice: Option<Notice>, redirectHome: bool)

  predicate Terminal(st: Status)
  {
    st != Pending
  }

  /** The state right after mounting: pending, the "being processed" message,
      the interval started. */
  function Initial(stored: Option<string>): (s: PollState)
    ensures s.status == Pending && s.message == ProcessingMessage && s.polling && s.taskId == stored
  {
    PollState(Pending, ProcessingMessage, true, stored)
  }

  /** The outcome of a terminal answer: stop polling, remove the task id. */
  function Settle(st: Status, msg: string, n: Notice, home: bool): CheckOutcome
  {
    CheckOutcome(PollState(st, msg, false, None), Some(n), home)
  }

  /** `checkVideoStatus` as a transition. */
  function Check(s: PollState, token: Option<string>, reply: ServerReply): (o: CheckOutcome)
    // with no token nothing changes; with no stored task id only polling stops
    ensures !Present(token) ==> o == CheckOutcome(s, None, false)
    ensures Present(token) && !Present(s.taskId) ==>
              o == CheckOutcome(s.(polling := false), None, false)
    // a status change is always to a terminal status, stops polling and removes the task id
    ensures o.next.status != s.status ==> Terminal(o.next.status) && !o.next.polling && o.next.taskId.None?
    // a notification comes only with such a terminal outcome; without one at most polling stops
    ensures o.notice.Some? ==> Terminal(o.next.status) && !o.next.polling && o.next.taskId.None?
    ensures o.notice.None? ==> o.next == s.(polling := o.next.polling) && (o.next.polling ==> s.polling)
    ensures o.redirectHome ==> o.notice.Some? && o.next.status == Success
  {
    if !Present(token) then CheckOutcome(s, None, false)
    else if !Present(s.taskId) then CheckOutcome(s.(polling := false), None, false)
    else match reply
      case Thrown => CheckOutcome(s, None, false)
      case Answer(st, msg) =>
        if st == "success" then
          Settle(Success, ApprovedMessage, Notice("Video uploaded successfully", SuccessNotice), true)
        else if st == "rejected" then
          Settle(Rejected, if Present(msg) then msg.value else GuidelinesMessage,
                 Notice("Video rejected", ErrorNotice), false)
        else if st == "error" then
          Settle(Rejected, ErrorMessage, Notice("Processing error for your video", ErrorNotice), false)
        else CheckOutcome(s, None, false)
  }

  /** The effect of each server answer, for a check that reaches the server. */
  lemma CheckAnswers(s: PollState, token: Option<string>, st: string, msg: Option<string>)
    requires Present(token) && Present(s.taskId)
    ensures var o := Check(s, token, Answer(st, msg));
      (st == "success" ==> o.next == PollState(Success, ApprovedMessage, false, None) && o.redirectHome) &&
      (st == "rejected" ==>
        o.next == PollState(Rejected, if Present(msg) then msg.value else GuidelinesMessage, false, None)) &&
      (st == "error" ==> o.next == PollState(Rejected, ErrorMessage, false, None)) &&
      (st !in {"success", "rejected", "error"} ==> o.next == s && o.notice.None?)
  {
  }

  /** A thrown error leaves everything as it was. */
  lemma CheckThrown(s: PollState, token: Option<string>)
    ensures Check(s, token, Thrown).next == s.(polling := s.polling && (Present(s.taskId) || !Present(token)))
  {
  }

  // ---------------------------------------------------------------------------
  // Polling over time
  // ---------------------------------------------------------------------------

  /** What can happen to a mounted screen: the interval fires (with the token
      and the server's answer at that time), or the polling effect runs again
      and starts a new interval. The effect runs again whenever the check
      callback is recreated, which happens on every render of the notification
      provider, including the render that a notification itself causes. */
  datatype Event = Fire(token: Option<string>, reply: ServerReply) | Restart

  function Poll(s: PollState, e: Event): PollState
  {
    match e
    case Fire(token, reply) => if s.polling then Check(s, token, reply).next else s
    case Restart => s.(polling := true)
  }

  function Run(s: PollState, events: seq<Event>): PollState
    decreases |events|
  {
    if events == [] then s else Run(Poll(s, events[0]), events[1..])
  }

  /** Once the status is terminal, the stored task id has been removed. */
  predicate Resolved(s: PollState)
  {
    Terminal(s.status) ==> s.taskId.None?
  }

  /** A single event keeps the invariant, never changes a terminal status,
      message or task id, and moves the status only from pending to a
      terminal one. */
  lemma PollStep(s: PollState, e: Event)
    requires Resolved(s)
    ensures Resolved(Poll(s, e))
    ensures Terminal(s.status) ==>
              Poll(s, e).status == s.status && Poll(s, e).message == s.message && Poll(s, e).taskId.None?
    ensures Poll(s, e).status == s.status || (s.status == Pending && Terminal(Poll(s, e).status))
  {
  }

  /** Polling is not over when a terminal answer arrives: every notification
      re-renders the provider, the effect restarts the interval, and polling
      is on again while the status stays terminal. */
  lemma NoticeRestartsPolling(s: PollState, token: Option<string>, reply: ServerReply)
    ensures var o := Check(s, token, reply);
            o.notice.Some? ==>
              Terminal(o.next.status) && !o.next.polling &&
              Terminal(Poll(o.next, Restart).status) && Poll(o.next, Restart).polling &&
              Poll(o.next, Restart).taskId.None?
  {
  }

  /** The next firing after a terminal outcome finds no stored task id and
      stops polling without changing anything else. */
  lemma FiringAfterTerminalStops(s: PollState, token: Option<string>, reply: ServerReply)
    requires Terminal(s.status) && s.taskId.None? && s.polling && Present(token)
    ensures Poll(s, Fire(token, reply)) == s.(polling := false)
  {
  }

  lemma {:induction false} RunAppend(s: PollState, a: seq<Event>, b: seq<Event>)
    ensures Run(s, a + b) == Run(Run(s, a), b)
    decreases |a|
  {
    if a == [] {
      assert a + b == b;
    } else {
      assert (a + b)[0] == a[0] && (a + b)[1..] == a[1..] + b;
      RunAppend(Poll(s, a[0]), a[1..], b);
    }
  }

  /** Starting from the invariant, every run keeps it. */
  lemma {:induction false} RunResolved(s: PollState, events: seq<Event>)
    requires Resolved(s)
    ensures Resolved(Run(s, events))
    decreases |events|
  {
    if events != [] {
      PollStep(s, events[0]);
      RunResolved(Poll(s, events[0]), events[1..]);
    }
  }

  /** After a terminal outcome, no mix of firings and restarts changes the
      status, the message or the removed task id. */
  lemma {:induction false} TerminalIsFinal(s: PollState, events: seq<Event>)
    requires Terminal(s.status) && s.taskId.None?
    ensures var r := Run(s, events);
            r.status == s.status && r.message == s.message && r.taskId.None?
    decreases |events|
  {
    if events != [] {
      PollStep(s, events[0]);
      TerminalIsFinal(Poll(s, events[0]), events[1..]);
    }
  }

  /** From the mounted screen, the status is pending until it first becomes
      terminal; from then on status, message and task id keep their values
      for every later event. */
  lemma StatusIsStable(stored: Option<string>, events: seq<Event>, i: nat, j: nat)
    requires i <= j <= |events|
    requires Terminal(Run(Initial(stored), events[..i]).status)
    ensures var a, b := Run(Initial(stored), events[..i]), Run(Initial(stored), events[..j]);
            b.status == a.status && b.message == a.message && b.taskId == a.taskId
  {
    var s0 := Initial(stored);
    var mid := Run(s0, events[..i]);
    RunResolved(s0, events[..i]);
    assert events[..j] == events[..i] + events[i..j];
    RunAppend(s0, events[..i], events[i..j]);
    TerminalIsFinal(mid, events[i..j]);
  }

  // ---------------------------------------------------------------------------
  // The screen
  // ---------------------------------------------------------------------------

  class ProcessingScreen {
    var status: Status
    var message: string
    var polling: bool
    const store: TaskStore

    function State(): PollState
      reads this, store
    {
      PollState(status, message, polling, store.taskId)
    }

    /** Mounting the screen starts the five-second interval. */
    constructor (store: TaskStore)
      ensures this.store == store
      ensures State() == Initial(store.taskId)
    {
      this.store := store;
      status := Pending;
      message := ProcessingMessage;
      polling := true;
    }

    /** `checkVideoStatus`: reads the stored task id, asks the server, and
        updates the screen and the storage according to the answer. */
    method CheckVideoStatus(token: Option<string>, reply: ServerReply) returns (notice: Option<Notice>, redirectHome: bool)
      modifies this, store
      ensures var o := Check(old(State()), token, reply);
              State() == o.next && notice == o.notice && redirectHome == o.redirectHome
    {
      var o := Check(State(), token, reply);
      if !Present(token) {
        return None, false;
      }
      if !Present(store.taskId) {
        polling := false;
        return None, false;
      }
      status, message, polling := o.next.status, o.next.message, o.next.polling;
      store.taskId := o.next.taskId;
      notice, redirectHome := o.notice, o.redirectHome;
    }

    /** One firing of the interval: a check runs only while polling. */
    method OnInterval(token: Option<string>, reply: ServerReply)
      modifies this, store
      ensures State() == Poll(old(State()), Fire(token, reply))
    {
      if polling {
        var _, _ := CheckVideoStatus(token, reply);
      }
    }

    /** The polling effect runs again (a new check callback) and starts a new
        interval. */
    method RestartInterval()
      modifies this`polling
      ensures State() == Poll(old(State()), Restart)
    {
      polling := true;
    }

    /** Unmounting clears the interval. */
    method Unmount()
      modifies this`polling
      ensures !polling
    {
      polling := false;
    }
  }
}
