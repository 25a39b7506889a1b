/** The Pomodoro session iterator of multiple_tasks/task.py: an endless stream that
    alternates a work timer and a break timer for one user, and the timers it hands out.
    Durations are minutes carried through unchanged; nothing here computes with them. */
module Sessions {

  /** Which concrete subclass of NamedTimer a timer is: WorkTimer or BreakTimer. */
  datatype TimerKind = Work | Break

  /** A timer as the iterator creates it: its subclass, the user's name and its
      duration in minutes. */
  datatype NamedTimer = NamedTimer(kind: TimerKind, name: string, duration: real)

  /** What awaiting a timer returns: its name, the instant it started and the
      elapsed time (a timedelta of `duration` minutes, kept as the minutes). */
  datatype TimerResult<Instant> = TimerResult(name: string, start: Instant, elapsed: real)

  /** The arguments a SessionIterator is built from. */
  datatype Settings = Settings(name: string, workDuration: real, breakDuration: real)

  /** The class attribute that each subclass sets; it only enters the completion log line. */
  function CompletionTemplate(kind: TimerKind): (s: string)
    ensures s == (if kind == Work then "work" else "break") + " session complete"
  {
    match kind
    case Work => "work session complete"
    case Break => "break session complete"
  }

  /** Awaiting a timer. The clock reading is the parameter `start`; the sleep and the
      log lines are left out. The tuple holds the timer's own name first and its
      configured duration last. */
  function Await<Instant>(t: NamedTimer, start: Instant): (r: TimerResult<Instant>)
    ensures r.name == t.name && r.start == start && r.elapsed == t.duration
  {
    TimerResult(t.name, start, t.duration)
  }

  /** A work timer and a break timer with the same name and duration return the same
      tuple; they differ only in their completion template. */
  lemma WorkAndBreakDifferOnlyInTemplate<Instant>(name: string, duration: real, start: Instant)
    ensures Await(NamedTimer(Work, name, duration), start) == Await(NamedTimer(Break, name, duration), start)
    ensures CompletionTemplate(Work) != CompletionTemplate(Break)
  {
    assert CompletionTemplate(Work)[0] != CompletionTemplate(Break)[0];
  }

  /** The timer `__anext__` creates when the flag `_next_timer_is_work` reads `nextIsWork`. */
  function NextTimer(s: Settings, nextIsWork: bool): (t: NamedTimer)
    ensures t.kind == Work <==> nextIsWork
    ensures t.name == s.name
    ensures t.duration == if nextIsWork then s.workDuration else s.breakDuration
  {
    if nextIsWork then NamedTimer(Work, s.name, s.workDuration)
    else NamedTimer(Break, s.name, s.breakDuration)
  }

  /** The next n timers of an iterator whose flag reads `nextIsWork`: each call hands
      out NextTimer for the current flag and negates the flag. */
  function Stream(s: Settings, nextIsWork: bool, n: nat): (ts: seq<NamedTimer>)
    ensures |ts| == n
    decreases n
  {
    if n == 0 then [] else [NextTimer(s, nextIsWork)] + Stream(s, !nextIsWork, n - 1)
  }

  /** The first n timers of a fresh iterator, whose flag starts true. */
  function Session(s: Settings, n: nat): seq<NamedTimer>
  {
    Stream(s, true, n)
  }

  /** Number of timers of the given kind in ts. */
  function CountKind(ts: seq<NamedTimer>, kind: TimerKind): (c: nat)
    ensures c <= |ts|
  {
    if ts == [] then 0
    else (if ts[0].kind == kind then 1 else 0) + CountKind(ts[1..], kind)
  }

  /** The i-th timer of a stream depends only on the parity of i: an even step
      hands out the timer the starting flag names, an odd step the other one. */
  lemma {:induction false} StreamAt(s: Settings, nextIsWork: bool, n: nat, i: nat)
    requires i < n
    ensures Stream(s, nextIsWork, n)[i] == NextTimer(s, nextIsWork == (i % 2 == 0))
    decreases n
  {
    if i > 0 {
      assert Stream(s, nextIsWork, n)[i] == Stream(s, !nextIsWork, n - 1)[i - 1];
      StreamAt(s, !nextIsWork, n - 1, i - 1);
    }
  }

  /** Step i of a session (counting from 0) is a work timer exactly when i is even;
      every timer carries the user's name and the duration that matches its kind. */
  lemma SessionAt(s: Settings, n: nat, i: nat)
    requires i < n
    ensures Session(s, n)[i].kind == Work <==> i % 2 == 0
    ensures Session(s, n)[i].name == s.name
    ensures Session(s, n)[i].duration == if i % 2 == 0 then s.workDuration else s.breakDuration
  {
    StreamAt(s, true, n, i);
  }

  /** A longer session extends a shorter one: the stream never rewrites what it has
      handed out. */
  lemma SessionExtends(s: Settings, n: nat)
    ensures Session(s, n + 1) == Session(s, n) + [NextTimer(s, n % 2 == 0)]
  {
    var longer, shorter := Session(s, n + 1), Session(s, n);
    forall i | 0 <= i < n + 1
      ensures longer[i] == (shorter + [NextTimer(s, n % 2 == 0)])[i]
    {
      StreamAt(s, true, n + 1, i);
      if i < n {
        StreamAt(s, true, n, i);
      }
    }
  }

  /** A fresh iterator's first timer is a work timer with the user's name and the work duration. */
  lemma FirstTimerIsWork(s: Settings, n: nat)
    requires n > 0
    ensures Session(s, n)[0] == NamedTimer(Work, s.name, s.workDuration)
  {
  }

  /** Successive timers strictly alternate between work and break. */
  lemma SessionAlternates(s: Settings, n: nat, i: nat)
    requires i + 1 < n
    ensures Session(s, n)[i].kind != Session(s, n)[i + 1].kind
  {
    SessionAt(s, n, i);
    SessionAt(s, n, i + 1);
  }

  /** Counting fact for any starting flag: of the next n timers, the kind the flag
      names gets the extra one when n is odd. */
  lemma {:induction false} StreamCounts(s: Settings, nextIsWork: bool, n: nat)
    ensures CountKind(Stream(s, nextIsWork, n), Work) == if nextIsWork then (n + 1) / 2 else n / 2
    ensures CountKind(Stream(s, nextIsWork, n), Break) == if nextIsWork then n / 2 else (n + 1) / 2
    decreases n
  {
    if n > 0 {
      var ts := Stream(s, nextIsWork, n);
      assert ts[1..] == Stream(s, !nextIsWork, n - 1);
      StreamCounts(s, !nextIsWork, n - 1);
    }
  }

  /** After n steps a fresh iterator has handed out ⌈n/2⌉ work timers and ⌊n/2⌋ break timers. */
  lemma SessionCounts(s: Settings, n: nat)
    ensures CountKind(Session(s, n), Work) == (n + 1) / 2
    ensures CountKind(Session(s, n), Break) == n / 2
  {
    StreamCounts(s, true, n);
  }

  /** Awaiting step i of a session returns the user's name and the duration of the
      matching session kind. */
  lemma AwaitSessionStep<Instant>(s: Settings, n: nat, i: nat, start: Instant)
    requires i < n
    ensures Await(Session(s, n)[i], start)
         == TimerResult(s.name, start, if i % 2 == 0 then s.workDuration else s.breakDuration)
  {
    SessionAt(s, n, i);
  }

  /** The async iterator. Its one piece of mutable state is the flag
      `_next_timer_is_work`; the ghost field `yielded` records every timer handed
      out so far. */
  class SessionIterator {
    const settings: Settings
    var nextTimerIsWork: bool
    ghost var yielded: seq<NamedTimer>

    /** What has been handed out is the start of the session, and the flag says
        whether an even number of timers has been handed out. */
    ghost predicate Valid()
      reads this
    {
      yielded == Session(settings, |yielded|) && nextTimerIsWork == (|yielded| % 2 == 0)
    }

    /** `__init__`: store the name and both durations; the first timer will be a work timer. */
    constructor (name: string, workDuration: real, breakDuration: real)
      ensures Valid()
      ensures settings == Settings(name, workDuration, breakDuration)
      ensures nextTimerIsWork && yielded == []
    {
      settings := Settings(name, workDuration, breakDuration);
      nextTimerIsWork := true;
      yielded := [];
    }

    /** `__aiter__` returns the iterator itself. */
    method AIter() returns (it: SessionIterator)
      ensures it == this
    {
      it := this;
    }

    /** `__anext__`: hand out the timer the flag names and negate the flag. It never
        signals exhaustion. */
    method ANext() returns (t: NamedTimer)
      requires Valid()
      modifies this
      ensures Valid()
      ensures nextTimerIsWork == !old(nextTimerIsWork)
      ensures t == NextTimer(settings, old(nextTimerIsWork))
      ensures yielded == old(yielded) + [t]
    {
      SessionExtends(settings, |yielded|);
      if nextTimerIsWork {
        nextTimerIsWork := false;
        t := NamedTimer(Work, settings.name, settings.workDuration);
      } else {
        nextTimerIsWork := true;
        t := NamedTimer(Break, settings.name, settings.breakDuration);
      }
      yielded := yielded + [t];
    }
  }

  /** The first n items `run_session` yields: it iterates a fresh SessionIterator and
      yields one pending call per timer, represented here by the timer it will await.
      The generator never ends on its own, so any n can be asked for. */
  method RunSession(name: string, workDuration: real, breakDuration: real, n: nat)
    returns (calls: seq<NamedTimer>)
    ensures calls == Session(Settings(name, workDuration, breakDuration), n)
  {
    var sessions := new SessionIterator(name, workDuration, breakDuration);
    var it := sessions.AIter();
    calls := [];
    while |calls| < n
      invariant it.Valid() && it.settings == Settings(name, workDuration, breakDuration)
      invariant calls == it.yielded && |calls| <= n
    {
      var timer := it.ANext();
      calls := calls + [timer];
    }
  }
}
