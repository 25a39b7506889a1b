/** The notification listener of psycopg_async_listen/execute.py: one connection that
    subscribes to a channel, hands every notification's payload to a queue, sends a
    heartbeat until it is cancelled, and then unsubscribes before the connection closes.
    The connection is abstract: whether it is open, which handlers it holds, and the
    log of everything done to it. */
module NotifyListener {

  /** A statement the listener sends over the connection. */
  datatype Command = Listen(channel: string) | Unlisten(channel: string) | Select1

  /** One thing done to the connection, in order: the context is entered, a statement
      is executed, the notify handler is added or removed, the context is left. */
  datatype Event = Enter | Exec(cmd: Command) | AddHandler | RemoveHandler | Exit

  /** A notification as the driver delivers it: channel, payload and sender's pid. */
  datatype Notification = Notification(channel: string, payload: string, pid: int)

  /** What happens next while the listener waits in its heartbeat loop: a heartbeat
      round completes, the driver delivers a notification, the task is cancelled at
      the heartbeat's suspension point, the heartbeat statement fails with an error
      that is not a cancellation, or the task is cancelled and the `UNLISTEN` of its
      teardown then raises (an error, or a second cancellation). */
  datatype Signal = Tick | Deliver(note: Notification) | Cancel | Fail | CancelThenUnlistenFails

  /** Where one run of the listener stands. Closed is the end of a cancelled run;
      Failed the end of a run whose heartbeat raised another error; Interrupted the
      end of a cancelled run whose `UNLISTEN` raised. */
  datatype Phase = Init | Listening | Closed | Failed | Interrupted

  // ---------------------------------------------------------------------------
  // The run as a function of what the environment does

  /** What the connection sees before the heartbeat loop: the context is entered,
      `LISTEN <channel>;` is executed, the handler is registered. */
  function Opening(channel: string): seq<Event>
  {
    [Enter, Exec(Listen(channel)), AddHandler]
  }

  /** Where the run stands after `signals`: it stops at the first cancellation or
      failure, and later signals no longer reach it. It is still listening exactly when
      every signal was a heartbeat round or a delivery. */
  function Outcome(signals: seq<Signal>): (p: Phase)
    ensures p != Init
    ensures p == Listening <==> forall i :: 0 <= i < |signals| ==> signals[i].Tick? || signals[i].Deliver?
  {
    if signals == [] then Listening
    else
      assert forall i :: 0 < i < |signals| ==> signals[i] == signals[1..][i - 1];
      match signals[0]
      case Cancel => Closed
      case Fail => Failed
      case CancelThenUnlistenFails => Interrupted
      case _ => Outcome(signals[1..])
  }

  /** What the heartbeat loop does to the connection while it consumes `signals`. */
  function LoopLog(channel: string, signals: seq<Signal>): seq<Event>
  {
    if signals == [] then []
    else match signals[0]
      case Tick => [Exec(Select1)] + LoopLog(channel, signals[1..])
      case Deliver(_) => LoopLog(channel, signals[1..])
      case Cancel => Teardown(channel, Closed)
      case Fail => Teardown(channel, Failed)
      case CancelThenUnlistenFails => Teardown(channel, Interrupted)
  }

  /** The whole log of one run over `signals`. */
  function RunLog(channel: string, signals: seq<Signal>): seq<Event>
  {
    Opening(channel) + LoopLog(channel, signals)
  }

  /** The payloads the run puts on the queue: one per notification delivered while
      it still listens, in delivery order. */
  function Enqueued(signals: seq<Signal>): seq<string>
  {
    if signals == [] then []
    else match signals[0]
      case Deliver(n) => [n.payload] + Enqueued(signals[1..])
      case Tick => Enqueued(signals[1..])
      case _ => []
  }

  /** The heartbeat rounds the run completes. */
  function Beats(signals: seq<Signal>): nat
  {
    if signals == [] then 0
    else match signals[0]
      case Tick => 1 + Beats(signals[1..])
      case Deliver(_) => Beats(signals[1..])
      case _ => 0
  }

  /** How many signals the run takes while it still listens: the length of the longest
      prefix made of heartbeats and deliveries only. */
  function LivePrefix(signals: seq<Signal>): (k: nat)
    ensures k <= |signals|
    ensures forall i :: 0 <= i < k ==> signals[i].Tick? || signals[i].Deliver?
    ensures k < |signals| ==> !(signals[k].Tick? || signals[k].Deliver?)
  {
    if signals != [] && (signals[0].Tick? || signals[0].Deliver?) then
      assert forall i :: 0 < i < |signals| ==> signals[i] == signals[1..][i - 1];
      1 + LivePrefix(signals[1..])
    else 0
  }

  /** The payloads of the deliveries among `s`, in order; heartbeats and stops carry none. */
  function Payloads(s: seq<Signal>): (ps: seq<string>)
    ensures |ps| <= |s|
  {
    if s == [] then []
    else (if s[0].Deliver? then [s[0].note.payload] else []) + Payloads(s[1..])
  }

  /** The connection's log has the shape one context gives it: it is entered first and
      only once, and once left nothing more happens to it. */
  predicate WellBracketed(log: seq<Event>)
  {
    |log| > 0 && log[0] == Enter &&
    (forall i :: 0 < i < |log| ==> log[i] != Enter) &&
    (forall i :: 0 <= i < |log| - 1 ==> log[i] != Exit)
  }

  // ---------------------------------------------------------------------------
  // Lemmas about the run

  /** `n` heartbeat rounds' worth of log: `SELECT 1;` n times. */
  function Heartbeats(n: nat): seq<Event>
  {
    if n == 0 then [] else [Exec(Select1)] + Heartbeats(n - 1)
  }

  /** What leaving the loop adds to the log, by how the run ended. */
  function Teardown(channel: string, p: Phase): seq<Event>
  {
    match p
    case Closed => [RemoveHandler, Exec(Unlisten(channel)), Exit]
    case Failed => [Exit]
    case Interrupted => [RemoveHandler, Exit]
    case _ => []
  }

  /** n heartbeat rounds leave n events on the log, each of them `SELECT 1;`. */
  lemma {:induction false} HeartbeatsAreSelects(n: nat)
    ensures |Heartbeats(n)| == n
    ensures forall k :: 0 <= k < n ==> Heartbeats(n)[k] == Exec(Select1)
  {
    if n > 0 {
      HeartbeatsAreSelects(n - 1);
    }
  }

  /** The same, as a bag: n heartbeat rounds are n copies of `SELECT 1;` and nothing else. */
  lemma {:induction false} HeartbeatsMultiset(n: nat)
    ensures multiset(Heartbeats(n)) == multiset{}[Exec(Select1) := n]
  {
    if n > 0 {
      HeartbeatsMultiset(n - 1);
    }
  }

  /** The outcome across a split: the second part decides it only while the first
      part leaves the run listening. */
  lemma {:induction false} SplitOutcome(p: seq<Signal>, q: seq<Signal>)
    ensures Outcome(p + q) == if Outcome(p) == Listening then Outcome(q) else Outcome(p)
  {
    if p == [] {
      assert p + q == q;
    } else {
      assert (p + q)[0] == p[0];
      assert (p + q)[1..] == p[1..] + q;
      if p[0].Tick? || p[0].Deliver? {
        SplitOutcome(p[1..], q);
      }
    }
  }

  /** The loop's log across a split. */
  lemma {:induction false} SplitLoopLog(channel: string, p: seq<Signal>, q: seq<Signal>)
    ensures LoopLog(channel, p + q)
         == if Outcome(p) == Listening then LoopLog(channel, p) + LoopLog(channel, q) else LoopLog(channel, p)
  {
    if p == [] {
      assert p + q == q;
    } else {
      assert (p + q)[0] == p[0];
      assert (p + q)[1..] == p[1..] + q;
      if p[0].Tick? {
        SplitLoopLog(channel, p[1..], q);
        assert LoopLog(channel, p + q) == [Exec(Select1)] + LoopLog(channel, p[1..] + q);
      } else if p[0].Deliver? {
        SplitLoopLog(channel, p[1..], q);
      }
    }
  }

  /** The queue's contents across a split. */
  lemma {:induction false} SplitEnqueued(p: seq<Signal>, q: seq<Signal>)
    ensures Enqueued(p + q) == if Outcome(p) == Listening then Enqueued(p) + Enqueued(q) else Enqueued(p)
  {
    if p == [] {
      assert p + q == q;
    } else {
      assert (p + q)[0] == p[0];
      assert (p + q)[1..] == p[1..] + q;
      if p[0].Tick? {
        SplitEnqueued(p[1..], q);
      } else if p[0].Deliver? {
        SplitEnqueued(p[1..], q);
        assert Enqueued(p + q) == [p[0].note.payload] + Enqueued(p[1..] + q);
      }
    }
  }

  /** A run's signals split at any point: while the run still listens after the first
      part, the second part continues it; once it stopped, the rest changes nothing. */
  lemma SplitRun(channel: string, p: seq<Signal>, q: seq<Signal>)
    ensures Outcome(p + q) == if Outcome(p) == Listening then Outcome(q) else Outcome(p)
    ensures LoopLog(channel, p + q)
         == if Outcome(p) == Listening then LoopLog(channel, p) + LoopLog(channel, q) else LoopLog(channel, p)
    ensures Enqueued(p + q) == if Outcome(p) == Listening then Enqueued(p) + Enqueued(q) else Enqueued(p)
  {
    SplitOutcome(p, q);
    SplitLoopLog(channel, p, q);
    SplitEnqueued(p, q);
  }

  /** Whatever the environment does, the loop's log is some number of heartbeats
      (one `SELECT 1;` per completed round) followed by the teardown for how the run
      ended; deliveries leave no trace on the connection. */
  lemma {:induction false} LoopLogNormalForm(channel: string, signals: seq<Signal>)
    ensures LoopLog(channel, signals) == Heartbeats(Beats(signals)) + Teardown(channel, Outcome(signals))
  {
    if signals != [] && (signals[0].Tick? || signals[0].Deliver?) {
      LoopLogNormalForm(channel, signals[1..]);
      if signals[0].Tick? {
        var rest := Heartbeats(Beats(signals[1..]));
        assert [Exec(Select1)] + (rest + Teardown(channel, Outcome(signals)))
            == ([Exec(Select1)] + rest) + Teardown(channel, Outcome(signals));
      }
    }
  }

  /** The event at index i of a run's log: the opening comes first; after it only
      heartbeats and the teardown's events appear; leaving the context is the last event. */
  lemma RunLogAt(channel: string, signals: seq<Signal>, i: nat)
    requires i < |RunLog(channel, signals)|
    ensures i < 3 ==> RunLog(channel, signals)[i] == Opening(channel)[i]
    ensures 3 <= i ==>
      RunLog(channel, signals)[i] in {Exec(Select1), RemoveHandler, Exec(Unlisten(channel)), Exit}
    ensures RunLog(channel, signals)[i] == Exit ==> i == |RunLog(channel, signals)| - 1
  {
    var b := Beats(signals);
    var tail := Teardown(channel, Outcome(signals));
    var log := RunLog(channel, signals);
    LoopLogNormalForm(channel, signals);
    HeartbeatsAreSelects(b);
    assert log == Opening(channel) + Heartbeats(b) + tail;
    assert |log| == 3 + b + |tail|;
    if 3 <= i < 3 + b {
      assert log[i] == Heartbeats(b)[i - 3];
    } else if 3 + b <= i {
      var k := i - 3 - b;
      assert log[i] == tail[k];
      assert tail[k] == Exit ==> k == |tail| - 1;
    }
  }

  /** A run's events as a bag: the opening, one `SELECT 1;` per heartbeat round and
      the teardown. */
  lemma RunLogMultiset(channel: string, signals: seq<Signal>)
    ensures multiset(RunLog(channel, signals))
         == multiset{Enter, Exec(Listen(channel)), AddHandler}
          + multiset{}[Exec(Select1) := Beats(signals)]
          + multiset(Teardown(channel, Outcome(signals)))
  {
    var b := Beats(signals);
    LoopLogNormalForm(channel, signals);
    HeartbeatsMultiset(b);
    assert RunLog(channel, signals) == Opening(channel) + Heartbeats(b) + Teardown(channel, Outcome(signals));
  }

  /** `LISTEN <channel>;` is the second event and the registration the third, each the
      only one of its kind, and every heartbeat comes after both. */
  lemma ListenThenRegisterThenHeartbeat(channel: string, signals: seq<Signal>)
    ensures forall i :: 0 <= i < |RunLog(channel, signals)| ==>
      (RunLog(channel, signals)[i].Exec? && RunLog(channel, signals)[i].cmd.Listen? <==> i == 1) &&
      (RunLog(channel, signals)[i] == AddHandler <==> i == 2) &&
      (RunLog(channel, signals)[i] == Exec(Select1) ==> i > 2)
  {
    forall i | 0 <= i < |RunLog(channel, signals)|
      ensures RunLog(channel, signals)[i].Exec? && RunLog(channel, signals)[i].cmd.Listen? <==> i == 1
      ensures RunLog(channel, signals)[i] == AddHandler <==> i == 2
      ensures RunLog(channel, signals)[i] == Exec(Select1) ==> i > 2
    {
      RunLogAt(channel, signals, i);
    }
  }

  /** The opening and the heartbeats, counted: the context is entered once, LISTEN
      issued once and the handler registered once per run; `SELECT 1;` is executed
      once per heartbeat round. */
  lemma RunLogCounts(channel: string, signals: seq<Signal>)
    ensures multiset(RunLog(channel, signals))[Enter] == 1
    ensures multiset(RunLog(channel, signals))[Exec(Listen(channel))] == 1
    ensures multiset(RunLog(channel, signals))[AddHandler] == 1
    ensures multiset(RunLog(channel, signals))[Exec(Select1)] == Beats(signals)
  {
    RunLogMultiset(channel, signals);
    var tail := Teardown(channel, Outcome(signals));
    assert multiset(tail)[Enter] == 0 && multiset(tail)[AddHandler] == 0;
    assert multiset(tail)[Exec(Listen(channel))] == 0 && multiset(tail)[Exec(Select1)] == 0;
  }

  /** The events each ending's teardown logs, counted. */
  lemma TeardownBag(channel: string, p: Phase)
    ensures multiset(Teardown(channel, p))[RemoveHandler] == if p == Closed || p == Interrupted then 1 else 0
    ensures multiset(Teardown(channel, p))[Exec(Unlisten(channel))] == if p == Closed then 1 else 0
    ensures multiset(Teardown(channel, p))[Exit] == if p == Init || p == Listening then 0 else 1
  {
    match p
    case Closed => assert multiset(Teardown(channel, p)) == multiset{RemoveHandler, Exec(Unlisten(channel)), Exit};
    case Failed => assert multiset(Teardown(channel, p)) == multiset{Exit};
    case Interrupted => assert multiset(Teardown(channel, p)) == multiset{RemoveHandler, Exit};
    case _ =>
  }

  /** The teardown, counted: the handler is removed once in a cancelled run (whether
      or not its `UNLISTEN` then raises) and never in another; `UNLISTEN <channel>;` is
      issued once in a cancelled run whose teardown completes and never in another; the
      context is left once unless the run is still listening. */
  lemma TeardownCounts(channel: string, signals: seq<Signal>)
    ensures multiset(RunLog(channel, signals))[RemoveHandler]
         == if Outcome(signals) == Closed || Outcome(signals) == Interrupted then 1 else 0
    ensures multiset(RunLog(channel, signals))[Exec(Unlisten(channel))] == if Outcome(signals) == Closed then 1 else 0
    ensures multiset(RunLog(channel, signals))[Exit] == if Outcome(signals) == Listening then 0 else 1
  {
    RunLogMultiset(channel, signals);
    TeardownBag(channel, Outcome(signals));
  }

  /** The test's view of a run: the context and the handler registration happen once,
      at least one statement is executed, and the handler is removed once when the run
      is cancelled, whether or not its `UNLISTEN` then raises. */
  lemma ExactlyOnce(channel: string, signals: seq<Signal>)
    ensures multiset(RunLog(channel, signals))[Enter] == 1
    ensures multiset(RunLog(channel, signals))[AddHandler] == 1
    ensures exists i :: 0 <= i < |RunLog(channel, signals)| && RunLog(channel, signals)[i].Exec?
    ensures Outcome(signals) == Closed || Outcome(signals) == Interrupted ==>
      multiset(RunLog(channel, signals))[RemoveHandler] == 1
  {
    RunLogCounts(channel, signals);
    TeardownCounts(channel, signals);
    RunLogAt(channel, signals, 1);
  }

  /** A run ends `Closed` (cancelled, with a teardown that completes) exactly when its
      log ends with the whole teardown: the handler removed, UNLISTEN on the run's
      channel, the context left; no heartbeat follows it. A cancelled run whose
      UNLISTEN raises ends `Interrupted` instead and its log ends otherwise. */
  lemma CancelTearsDown(channel: string, signals: seq<Signal>)
    ensures var log := RunLog(channel, signals);
      Outcome(signals) == Closed <==>
        |log| >= 3 && log[|log| - 3..] == [RemoveHandler, Exec(Unlisten(channel)), Exit]
  {
    var log := RunLog(channel, signals);
    var b := Beats(signals);
    LoopLogNormalForm(channel, signals);
    TeardownCounts(channel, signals);
    assert log == Opening(channel) + Heartbeats(b) + Teardown(channel, Outcome(signals));
    if Outcome(signals) != Closed && |log| >= 3 {
      assert log[|log| - 2] in multiset(log);
      assert log[|log| - 3..][1] == log[|log| - 2];
    }
  }

  /** The shape of a failed run: the opening, the heartbeats, then the exit. */
  lemma FailedRunLog(channel: string, signals: seq<Signal>)
    requires Outcome(signals) == Failed
    ensures RunLog(channel, signals) == Opening(channel) + Heartbeats(Beats(signals)) + [Exit]
  {
    LoopLogNormalForm(channel, signals);
  }

  /** The log of a failed run, counted: no removal and no `UNLISTEN` at all. */
  lemma FailedCounts(channel: string, b: nat)
    ensures var log := Opening(channel) + Heartbeats(b) + [Exit];
      multiset(log)[RemoveHandler] == 0 && forall c :: multiset(log)[Exec(Unlisten(c))] == 0
  {
    HeartbeatsMultiset(b);
  }

  /** A failure other than cancellation skips the teardown: the handler is not
      removed, no UNLISTEN is issued, and the run ends by leaving the context. */
  lemma FailureSkipsTeardown(channel: string, signals: seq<Signal>)
    requires Outcome(signals) == Failed
    ensures multiset(RunLog(channel, signals))[RemoveHandler] == 0
    ensures forall c :: multiset(RunLog(channel, signals))[Exec(Unlisten(c))] == 0
    ensures RunLog(channel, signals)[|RunLog(channel, signals)| - 1] == Exit
  {
    FailedRunLog(channel, signals);
    FailedCounts(channel, Beats(signals));
  }

  /** The shape of a run whose `UNLISTEN` raises: the opening, the heartbeats, then
      the removal and the exit. */
  lemma InterruptedRunLog(channel: string, signals: seq<Signal>)
    requires Outcome(signals) == Interrupted
    ensures RunLog(channel, signals) == Opening(channel) + Heartbeats(Beats(signals)) + [RemoveHandler, Exit]
  {
    LoopLogNormalForm(channel, signals);
  }

  /** A log of that shape, counted: one removal and no `UNLISTEN` at all. */
  lemma InterruptedCounts(channel: string, b: nat)
    ensures var log := Opening(channel) + Heartbeats(b) + [RemoveHandler, Exit];
      multiset(log)[RemoveHandler] == 1 && forall c :: multiset(log)[Exec(Unlisten(c))] == 0
  {
    HeartbeatsMultiset(b);
  }

  /** A cancelled run whose `UNLISTEN` raises has removed the handler once but issued
      no `UNLISTEN`; the error escapes the loop and the context is left last. */
  lemma InterruptedTeardownSkipsUnlisten(channel: string, signals: seq<Signal>)
    requires Outcome(signals) == Interrupted
    ensures multiset(RunLog(channel, signals))[RemoveHandler] == 1
    ensures forall c :: multiset(RunLog(channel, signals))[Exec(Unlisten(c))] == 0
    ensures |RunLog(channel, signals)| >= 2
    ensures RunLog(channel, signals)[|RunLog(channel, signals)| - 2..] == [RemoveHandler, Exit]
  {
    var log := RunLog(channel, signals);
    InterruptedRunLog(channel, signals);
    InterruptedCounts(channel, Beats(signals));
    assert log[|log| - 2..] == [RemoveHandler, Exit];
  }

  /** Every run's log is well bracketed, so every statement, UNLISTEN included, is
      executed while the connection is open: after the context's entry and before its exit. */
  lemma StatementsWhileOpen(channel: string, signals: seq<Signal>)
    ensures WellBracketed(RunLog(channel, signals))
    ensures forall i :: 0 <= i < |RunLog(channel, signals)| && RunLog(channel, signals)[i].Exec? ==>
      0 < i && Exit !in RunLog(channel, signals)[..i]
  {
    var log := RunLog(channel, signals);
    forall i | 0 <= i < |log|
      ensures 0 < i ==> log[i] != Enter
      ensures i < |log| - 1 ==> log[i] != Exit
      ensures log[i].Exec? ==> 0 < i
    {
      RunLogAt(channel, signals, i);
    }
    forall i | 0 <= i < |log| && log[i].Exec?
      ensures Exit !in log[..i]
    {
      assert forall j :: 0 <= j < i ==> log[..i][j] == log[j];
    }
  }

  /** LISTEN and UNLISTEN name exactly the channel the run was started with. */
  lemma ChannelsMatch(channel: string, signals: seq<Signal>)
    ensures forall i :: 0 <= i < |RunLog(channel, signals)| ==>
      (RunLog(channel, signals)[i].Exec? && !RunLog(channel, signals)[i].cmd.Select1? ==>
         RunLog(channel, signals)[i].cmd.channel == channel)
  {
    forall i | 0 <= i < |RunLog(channel, signals)| && RunLog(channel, signals)[i].Exec?
      && !RunLog(channel, signals)[i].cmd.Select1?
      ensures RunLog(channel, signals)[i].cmd.channel == channel
    {
      RunLogAt(channel, signals, i);
    }
  }

  /** The queue's contents against the signals themselves: the payloads of the
      deliveries in the listening prefix. */
  lemma {:induction false} EnqueuedIsLivePayloads(signals: seq<Signal>)
    ensures Enqueued(signals) == Payloads(signals[..LivePrefix(signals)])
  {
    if signals != [] && (signals[0].Tick? || signals[0].Deliver?) {
      EnqueuedIsLivePayloads(signals[1..]);
      var k := LivePrefix(signals);
      assert signals[..k][1..] == signals[1..][..k - 1];
    }
  }

  /** A notification delivered while the run listens is queued after everything
      before it and ahead of everything after it. */
  lemma DeliveryQueuedInOrder(s: seq<Signal>, n: Notification, signals: seq<Signal>)
    requires Outcome(s) == Listening
    ensures Enqueued(s + [Deliver(n)] + signals) == Enqueued(s) + [n.payload] + Enqueued(signals)
  {
    var rest := [Deliver(n)] + signals;
    assert s + [Deliver(n)] + signals == s + rest;
    SplitEnqueued(s, rest);
    assert rest[0] == Deliver(n) && rest[1..] == signals;
    assert Enqueued(rest) == [n.payload] + Enqueued(signals);
  }

  /** The queue holds the payloads of exactly the notifications delivered before the
      first signal that stops the run, in delivery order; and a notification
      delivered later comes later in the queue. */
  lemma EnqueuedPayloads(signals: seq<Signal>)
    ensures Enqueued(signals) == Payloads(signals[..LivePrefix(signals)])
    ensures forall s, n :: Outcome(s) == Listening ==>
      Enqueued(s + [Deliver(n)] + signals) == Enqueued(s) + [n.payload] + Enqueued(signals)
  {
    EnqueuedIsLivePayloads(signals);
    forall s, n | Outcome(s) == Listening
      ensures Enqueued(s + [Deliver(n)] + signals) == Enqueued(s) + [n.payload] + Enqueued(signals)
    {
      DeliveryQueuedInOrder(s, n, signals);
    }
  }

  // ---------------------------------------------------------------------------
  // The objects

  /** The consumer queue (an asyncio.Queue): an ordered sequence of payloads. */
  class NotifyQueue {
    var items: seq<string>

    constructor ()
      ensures items == []
    {
      items := [];
    }

    /** `put`: append at the back. */
    method Put(x: string)
      modifies this
      ensures items == old(items) + [x]
    {
      items := items + [x];
    }
  }

  /** The handler object whose bound `callback` is registered on the connection. */
  class QueuePutNotifyHandler {
    const queue: NotifyQueue

    constructor (queue: NotifyQueue)
      ensures this.queue == queue
    {
      this.queue := queue;
    }

    /** `callback`: put the notification's payload, not its channel, on the queue, once.
        The hand-off to the event loop's thread is a synchronous put here. */
    method Callback(msg: Notification)
      modifies queue
      ensures queue.items == old(queue.items) + [msg.payload]
    {
      queue.Put(msg.payload);
    }
  }

  /** The abstract database connection: open or not, the notify handlers it holds,
      and the log of everything done to it. */
  class Connection {
    var open: bool
    var handlers: set<QueuePutNotifyHandler>
    var log: seq<Event>

    /** A connection that has not been entered yet. */
    constructor ()
      ensures !open && handlers == {} && log == []
    {
      open, handlers, log := false, {}, [];
    }

    /** Entering `get_connection()`: the session is opened. */
    method Connect()
      modifies this
      ensures open && handlers == old(handlers)
      ensures log == old(log) + [Event.Enter]
    {
      open := true;
      log := log + [Event.Enter];
    }

    /** `execute`: a statement goes through only on an open connection; on a closed
        one it fails and nothing is logged. */
    method Execute(cmd: Command) returns (ok: bool)
      modifies this
      ensures ok == old(open) && open == old(open) && handlers == old(handlers)
      ensures log == old(log) + if ok then [Exec(cmd)] else []
    {
      ok := open;
      if ok {
        log := log + [Exec(cmd)];
      }
    }

    /** `add_notify_handler`. */
    method AddNotifyHandler(h: QueuePutNotifyHandler)
      modifies this
      ensures handlers == old(handlers) + {h} && open == old(open)
      ensures log == old(log) + [AddHandler]
    {
      handlers := handlers + {h};
      log := log + [AddHandler];
    }

    /** `remove_notify_handler`: the handler must be registered (removing one that is
        not raises in the driver). */
    method RemoveNotifyHandler(h: QueuePutNotifyHandler)
      requires h in handlers
      modifies this
      ensures handlers == old(handlers) - {h} && open == old(open)
      ensures log == old(log) + [RemoveHandler]
    {
      handlers := handlers - {h};
      log := log + [RemoveHandler];
    }

    /** Leaving the `async with` block closes the connection; closing a closed one
        does nothing. */
    method Close()
      modifies this
      ensures !open && handlers == old(handlers)
      ensures log == old(log) + if old(open) then [Exit] else []
    {
      if open {
        open := false;
        log := log + [Exit];
      }
    }
  }

  /** One run of `listen_for_notifications` on its own connection, as a state machine
      driven step by step. The ghost field `history` holds the signals the run has
      consumed; Valid ties the connection's state and log to it. */
  class Listener {
    const channel: string
    const conn: Connection
    const handler: QueuePutNotifyHandler
    var phase: Phase
    ghost var history: seq<Signal>

    ghost predicate Valid()
      reads this, conn
    {
      match phase
      case Init => !conn.open && conn.handlers == {} && conn.log == [] && history == []
      case Listening =>
        conn.open && conn.handlers == {handler} &&
        Outcome(history) == Listening && conn.log == RunLog(channel, history)
      case Closed =>
        !conn.open && conn.handlers == {} &&
        Outcome(history) == Closed && conn.log == RunLog(channel, history)
      case Failed =>
        !conn.open && conn.handlers == {handler} &&
        Outcome(history) == Failed && conn.log == RunLog(channel, history)
      case Interrupted =>
        !conn.open && conn.handlers == {} &&
        Outcome(history) == Interrupted && conn.log == RunLog(channel, history)
    }

    /** The handler is built around the caller's queue; the connection is not yet entered. */
    constructor (channel: string, queue: NotifyQueue)
      ensures Valid() && phase == Init && fresh(conn)
      ensures this.channel == channel && handler.queue == queue
    {
      this.channel := channel;
      conn := new Connection();
      handler := new QueuePutNotifyHandler(queue);
      phase := Init;
      history := [];
    }

    /** Enter the connection, issue `LISTEN <channel>;`, register the handler. */
    method Start()
      requires Valid() && phase == Init
      modifies this, conn
      ensures Valid() && phase == Listening && history == []
      ensures conn.log == Opening(channel)
    {
      conn.Connect();
      var ok := conn.Execute(Listen(channel));
      assert ok;
      conn.AddNotifyHandler(handler);
      phase := Listening;
    }

    /** One heartbeat round: `SELECT 1;`, then the sleep, which completes. */
    method Heartbeat()
      requires Valid() && phase == Listening
      modifies this, conn
      ensures Valid() && phase == Listening && history == old(history) + [Tick]
      ensures conn.log == old(conn.log) + [Exec(Select1)]
    {
      SplitRun(channel, history, [Tick]);
      var ok := conn.Execute(Select1);
      assert ok;
      history := history + [Tick];
    }

    /** Cancellation caught at the heartbeat: remove the handler, issue
        `UNLISTEN <channel>;` while the connection is still open, leave the loop; the
        context manager then closes the connection. */
    method Cancel()
      requires Valid() && phase == Listening
      modifies this, conn
      ensures Valid() && phase == Closed && history == old(history) + [Signal.Cancel]
      ensures conn.log == old(conn.log) + Teardown(channel, Closed)
    {
      SplitRun(channel, history, [Signal.Cancel]);
      conn.RemoveNotifyHandler(handler);
      var ok := conn.Execute(Unlisten(channel));
      assert ok;
      conn.Close();
      phase := Closed;
      history := history + [Signal.Cancel];
    }

    /** The heartbeat statement raised an error that is not a cancellation: it is not
        caught, so the context manager closes the connection with the handler still
        registered and no UNLISTEN. */
    method Fail()
      requires Valid() && phase == Listening
      modifies this, conn
      ensures Valid() && phase == Failed && history == old(history) + [Signal.Fail]
      ensures conn.log == old(conn.log) + [Exit]
    {
      SplitRun(channel, history, [Signal.Fail]);
      conn.Close();
      phase := Failed;
      history := history + [Signal.Fail];
    }

    /** Cancellation caught at the heartbeat, and then `UNLISTEN <channel>;` raises
        (an error, or a second cancellation). The handler is already removed; the
        exception escapes the `except` block, so the loop is not left by `break`, and
        the context manager closes the connection. A statement that raises leaves no
        trace on the log. */
    method CancelThenUnlistenFails()
      requires Valid() && phase == Listening
      modifies this, conn
      ensures Valid() && phase == Interrupted && history == old(history) + [Signal.CancelThenUnlistenFails]
      ensures conn.log == old(conn.log) + Teardown(channel, Interrupted)
    {
      SplitRun(channel, history, [Signal.CancelThenUnlistenFails]);
      conn.RemoveNotifyHandler(handler);
      conn.Close();
      phase := Interrupted;
      history := history + [Signal.CancelThenUnlistenFails];
    }

    /** The driver delivers a notification: every handler registered on an open
        connection is called. Only a listening run puts the payload on the queue. */
    method Notify(n: Notification)
      requires Valid()
      modifies this, handler.queue
      ensures Valid() && phase == old(phase)
      ensures history == if phase == Listening then old(history) + [Deliver(n)] else old(history)
      ensures handler.queue.items
           == old(handler.queue.items) + if phase == Listening then [n.payload] else []
    {
      if conn.open && handler in conn.handlers {
        handler.Callback(n);
        SplitRun(channel, history, [Deliver(n)]);
        history := history + [Deliver(n)];
      }
    }
  }

  /** One more signal taken by the loop extends the run by that signal. */
  lemma RunStep(channel: string, signals: seq<Signal>, i: nat)
    requires i < |signals|
    ensures signals[..i + 1] == signals[..i] + [signals[i]]
    ensures Outcome(signals[..i + 1])
         == if Outcome(signals[..i]) == Listening then Outcome([signals[i]]) else Outcome(signals[..i])
    ensures Enqueued(signals[..i + 1])
         == if Outcome(signals[..i]) == Listening then Enqueued(signals[..i]) + Enqueued([signals[i]])
            else Enqueued(signals[..i])
  {
    assert signals[..i + 1] == signals[..i] + [signals[i]];
    SplitRun(channel, signals[..i], [signals[i]]);
  }

  /** Once the loop stops, by running out of signals or by the run ending, the signals
      it did not take change nothing. */
  lemma RunStops(channel: string, signals: seq<Signal>, i: nat)
    requires i <= |signals|
    requires i == |signals| || Outcome(signals[..i]) != Listening
    ensures Outcome(signals) == Outcome(signals[..i])
    ensures RunLog(channel, signals) == RunLog(channel, signals[..i])
    ensures Enqueued(signals) == Enqueued(signals[..i])
  {
    assert signals == signals[..i] + signals[i..];
    SplitRun(channel, signals[..i], signals[i..]);
  }

  /** `listen_for_notifications(channel, queue)` against an environment that does
      `signals`, in order. The loop runs until the run is cancelled or fails, or the
      signals run out (the run is then still listening). It reports where the run
      stopped and the connection's log, and the queue gains exactly the payloads the
      run enqueued. */
  method ListenForNotifications(channel: string, queue: NotifyQueue, signals: seq<Signal>)
    returns (outcome: Phase, log: seq<Event>)
    modifies queue
    ensures outcome == Outcome(signals)
    ensures log == RunLog(channel, signals)
    ensures queue.items == old(queue.items) + Enqueued(signals)
  {
    var listener := new Listener(channel, queue);
    listener.Start();
    var i := 0;
    while i < |signals| && listener.phase == Listening
      invariant 0 <= i <= |signals|
      decreases |signals| - i
      invariant listener.Valid() && listener.phase != Init && listener.handler.queue == queue
      invariant listener.channel == channel && fresh(listener.conn)
      invariant listener.history == signals[..i]
      invariant listener.phase == Outcome(signals[..i])
      invariant queue.items == old(queue.items) + Enqueued(signals[..i])
    {
      match signals[i] {
        case Tick => listener.Heartbeat();
        case Deliver(n) => listener.Notify(n);
        case Cancel => listener.Cancel();
        case Fail => listener.Fail();
        case CancelThenUnlistenFails => listener.CancelThenUnlistenFails();
      }
      RunStep(channel, signals, i);
      i := i + 1;
    }
    RunStops(channel, signals, i);
    outcome := listener.phase;
    log := listener.conn.log;
  }
}
