/** The debounced refresh loop: which calls start a refresh, and why none is lost. */
module Refresh {
  /**
   The service's three fields, and the model's bookkeeping: how many refreshes
   are under way, how often scheduleRefresh has been called, and how often it
   had been when the last refresh started.
   */
  datatype Sched = Sched(
    timer: bool, running: bool, rerunRequested: bool, underWay: nat, requests: nat, covered: nat)

  /** Another service schedules, the timer fires, the cron or the bootstrap calls, a refresh ends. */
  datatype Event = Schedule | TimerFires | RefreshNow | Finish

  function Scheduled(s: Sched): Sched
  {
    s.(timer := true, requests := s.requests + 1)
  }

  function Refreshed(s: Sched): Sched
  {
    if s.running then s.(rerunRequested := true)
    else s.(running := true, underWay := s.underWay + 1, covered := s.requests)
  }

  function Finished(s: Sched): Sched
    requires s.underWay > 0
  {
    var idle := s.(running := false, underWay := s.underWay - 1);
    if s.rerunRequested then Scheduled(idle.(rerunRequested := false)) else idle
  }

  /** A timer fires only while it is set, and a refresh ends only while one is under way. */
  function Next(s: Sched, e: Event): Sched
  {
    match e
    case Schedule => Scheduled(s)
    case TimerFires => if s.timer then Refreshed(s.(timer := false)) else s
    case RefreshNow => Refreshed(s)
    case Finish => if s.underWay > 0 then Finished(s) else s
  }

  function Run(s: Sched, events: seq<Event>): Sched
  {
    if events == [] then s else Next(Run(s, events[..|events| - 1]), events[|events| - 1])
  }

  function Start(): Sched
  {
    Sched(false, false, false, 0, 0, 0)
  }

  class StockLevelService {
    var timer: bool
    var running: bool
    var rerunRequested: bool
    var underWay: nat
    var requests: nat
    var covered: nat

    function State(): Sched
      reads this
    {
      Sched(timer, running, rerunRequested, underWay, requests, covered)
    }

    constructor ()
      ensures State() == Start()
    {
      timer, running, rerunRequested := false, false, false;
      underWay, requests, covered := 0, 0, 0;
    }

    /** Sets the timer, clearing one that was set. */
    method ScheduleRefresh()
      modifies this
      ensures State() == Next(old(State()), Schedule)
    {
      if timer {
        timer := false;
      }
      timer := true;
      requests := requests + 1;
    }

    method OnTimer()
      requires timer
      modifies this
      ensures State() == Next(old(State()), TimerFires)
    {
      timer := false;
      RefreshNow();
    }

    /** Up to the await: what happens before the refresh it starts, or joins, ends. */
    method RefreshNow()
      modifies this
      ensures State() == Next(old(State()), Event.RefreshNow)
    {
      if running {
        rerunRequested := true;
        return;
      }
      running := true;
      underWay := underWay + 1;
      covered := requests;
    }

    /** The finally block. A refresh catches its own errors, so it always gets here. */
    method OnRefreshEnd()
      requires underWay > 0
      modifies this
      ensures State() == Next(old(State()), Finish)
    {
      underWay := underWay - 1;
      running := false;
      if rerunRequested {
        rerunRequested := false;
        ScheduleRefresh();
      }
    }
  }

  /** A request no refresh has started after is waiting for the timer or for the refresh under way. */
  predicate NothingLost(s: Sched)
  {
    && s.underWay == (if s.running then 1 else 0)
    && (s.rerunRequested ==> s.running)
    && s.covered <= s.requests
    && (s.covered < s.requests ==> s.timer || s.rerunRequested)
  }

  lemma NextLosesNothing(s: Sched, e: Event)
    requires NothingLost(s)
    ensures NothingLost(Next(s, e))
  {
  }

  /**
   In every order of calls, timer firings and completions: at most one refresh
   is under way, and once no timer is set and nothing is running, some refresh
   has started after the last scheduleRefresh.
   */
  lemma {:induction false} NoRefreshIsLost(events: seq<Event>)
    ensures var s := Run(Start(), events);
            s.underWay <= 1 && (!s.timer && !s.running ==> s.covered == s.requests)
  {
    RunLosesNothing(events);
  }

  lemma {:induction false} RunLosesNothing(events: seq<Event>)
    ensures NothingLost(Run(Start(), events))
  {
    if events != [] {
      RunLosesNothing(events[..|events| - 1]);
      NextLosesNothing(Run(Start(), events[..|events| - 1]), events[|events| - 1]);
    }
  }

  /** How much the loop still has to do on its own. */
  function Remaining(s: Sched): nat
  {
    (if s.timer then 3 else 0) + (if s.running then 2 else 0) + (if s.rerunRequested then 2 else 0)
  }

  /** The timer firing or a refresh ending. */
  predicate Internal(s: Sched, e: Event)
  {
    (e.TimerFires? && s.timer) || (e.Finish? && s.underWay > 0)
  }

  /** The events are all internal, each possible when it happens. */
  predicate AllInternal(s: Sched, events: seq<Event>)
  {
    events == [] || (AllInternal(s, events[..|events| - 1]) && Internal(Run(s, events[..|events| - 1]), events[|events| - 1]))
  }

  /** Left alone, the loop comes to rest: every step of its own uses up some of what remains, at most seven in all. */
  lemma {:induction false} ComesToRest(s: Sched, events: seq<Event>)
    requires NothingLost(s) && AllInternal(s, events)
    ensures var after := Run(s, events);
            && NothingLost(after)
            && |events| + Remaining(after) <= Remaining(s) <= 7
            && (Remaining(after) == 0 ==> after.covered == after.requests)
            && (Remaining(after) > 0 ==> Internal(after, TimerFires) || Internal(after, Finish))
  {
    if events != [] {
      ComesToRest(s, events[..|events| - 1]);
      NextLosesNothing(Run(s, events[..|events| - 1]), events[|events| - 1]);
    }
  }

  /** The event asks for a refresh: somebody schedules one, or calls for it directly. */
  predicate Asks(e: Event)
  {
    e == Schedule || e == RefreshNow
  }

  /** A refresh starts at event j: none is running, and the call is direct or the timer set. */
  predicate Starts(events: seq<Event>, j: nat)
    requires j < |events|
  {
    var s := Run(Start(), events[..j]);
    !s.running && (events[j] == RefreshNow || (events[j] == TimerFires && s.timer))
  }

  /** Event i asked for a refresh, and none has started since. */
  predicate Unanswered(events: seq<Event>, i: nat)
  {
    i < |events| && Asks(events[i]) && forall j :: i <= j < |events| ==> !Starts(events, j)
  }

  lemma {:induction false} UnansweredWaits(events: seq<Event>, i: nat)
    requires Unanswered(events, i)
    ensures Run(Start(), events).timer || Run(Start(), events).rerunRequested
  {
    var n := |events| - 1;
    assert !Starts(events, n);
    if i < n {
      forall j | i <= j < n ensures !Starts(events[..n], j) {
        assert events[..n][..j] == events[..j] && !Starts(events, j);
      }
      UnansweredWaits(events[..n], i);
    }
  }

  /** Once no timer is set and nothing is running, a refresh has started at or after every event that asked for one. */
  lemma EveryAskIsAnswered(events: seq<Event>, i: nat)
    requires !Run(Start(), events).timer && !Run(Start(), events).running
    ensures !Unanswered(events, i)
  {
    RunLosesNothing(events);
    if Unanswered(events, i) {
      UnansweredWaits(events, i);
    }
  }
}
