/** Any sequence of events the widget can see after setup (clicks on the toggle, props
    updates, timer firings, unmounting), and what the state machine guarantees across it. */
module RefresherTraces {
  import opened JsValues
  import opened Timers
  import opened RefresherSpec

  datatype Event = ClickToggle | PropsUpdate(nextProps: Option<int>) | Unmount | TimerFires(id: TimerId)

  function Step(s: State, e: Event): State {
    match e
    case ClickToggle => ToggleAutoRefresher(s)
    case PropsUpdate(p) => WillUpdateProps(s, p)
    case Unmount => WillUnmount(s)
    case TimerFires(id) => Tick(s, id)
  }

  lemma StepKeepsInv(s: State, e: Event)
    ensures Inv(s) ==> Inv(Step(s, e))
  {
    if Inv(s) {
      match e
      case ClickToggle => ToggleKeepsInv(s);
      case PropsUpdate(p) => UpdatePropsKeepsInv(s, p);
      case Unmount => UnmountClears(s);
      case TimerFires(id) => TickRefreshesLiveTimerOnly(s, id);
    }
  }

  /** The state after the events `evs`, in order. Whatever they are, the invariant (at most
      one live timer, live iff enabled while mounted) is kept and refreshes only accumulate. */
  function Run(s: State, evs: seq<Event>): (t: State)
    ensures Inv(s) ==> Inv(t)
    ensures t.refreshes >= s.refreshes
    decreases |evs|
  {
    if evs == [] then s
    else
      StepKeepsInv(s, evs[0]);
      Run(Step(s, evs[0]), evs[1..])
  }

  /** The state reached from setup by any events keeps the invariant; in particular no
      more than one timer is ever live. */
  lemma ReachableAtMostOneTimer(initialProps: Option<int>, evs: seq<Event>)
    ensures Inv(Run(Setup(initialProps), evs))
    ensures |Run(Setup(initialProps), evs).active| <= 1
  {
    AtMostOneTimer(Run(Setup(initialProps), evs));
  }

  lemma RunCons(s: State, e: Event, evs: seq<Event>)
    ensures Run(s, [e] + evs) == Run(Step(s, e), evs)
  {
  }

  predicate OnlyTimerFirings(evs: seq<Event>) {
    forall i :: 0 <= i < |evs| ==> evs[i].TimerFires?
  }

  /** The same timer firing `n` times in a row. */
  function Firings(id: TimerId, n: nat): (evs: seq<Event>)
    ensures |evs| == n && OnlyTimerFirings(evs)
    ensures forall i :: 0 <= i < n ==> evs[i] == TimerFires(id)
  {
    seq(n, _ => TimerFires(id))
  }

  /** With no live timer, timer firings change nothing, however many there are. */
  lemma {:induction false} SilentWithoutLiveTimer(s: State, evs: seq<Event>)
    requires s.active == map[] && OnlyTimerFirings(evs)
    ensures Run(s, evs) == s
    decreases |evs|
  {
    if evs != [] {
      assert evs[0].TimerFires?;
      assert OnlyTimerFirings(evs[1..]) by {
        forall i | 0 <= i < |evs[1..]| ensures evs[1..][i].TimerFires? {
          assert evs[1..][i] == evs[i + 1];
        }
      }
      SilentWithoutLiveTimer(s, evs[1..]);
    }
  }

  /** After toggling off, no timer firing refreshes again. */
  lemma NoRefreshAfterToggleOff(s: State, evs: seq<Event>)
    requires Inv(s) && s.enabled && OnlyTimerFirings(evs)
    ensures Run(s, [ClickToggle] + evs) == s.(enabled := false, active := map[])
  {
    RunCons(s, ClickToggle, evs);
    ToggleOff(s);
    SilentWithoutLiveTimer(ToggleAutoRefresher(s), evs);
  }

  /** After unmounting, no timer firing refreshes again: the timer does not leak. */
  lemma NoRefreshAfterUnmount(s: State, evs: seq<Event>)
    requires Inv(s) && OnlyTimerFirings(evs)
    ensures Run(s, [Unmount] + evs) == WillUnmount(s)
    ensures WillUnmount(s).active == map[] && WillUnmount(s).refreshes == s.refreshes
  {
    RunCons(s, Unmount, evs);
    UnmountClears(s);
    SilentWithoutLiveTimer(WillUnmount(s), evs);
  }

  /** Each firing of the live timer refreshes exactly once. */
  lemma {:induction false} LiveTimerRefreshesPerFiring(s: State, n: nat)
    requires Inv(s) && s.handle.Some? && s.handle.value in s.active
    ensures Run(s, Firings(s.handle.value, n)) == s.(refreshes := s.refreshes + n)
    decreases n
  {
    if n > 0 {
      var id := s.handle.value;
      var evs := Firings(id, n);
      assert evs == [TimerFires(id)] + Firings(id, n - 1);
      RunCons(s, TimerFires(id), Firings(id, n - 1));
      LiveTimerRefreshesPerFiring(Tick(s, id), n - 1);
    }
  }

  /** Toggling on and letting the new timer fire `n` times refreshes `n + 1` times. */
  lemma ToggleOnThenFirings(s: State, n: nat)
    requires Inv(s) && !s.enabled
    ensures Run(s, [ClickToggle] + Firings(s.nextId, n)).refreshes == s.refreshes + 1 + n
  {
    RunCons(s, ClickToggle, Firings(s.nextId, n));
    ToggleOn(s);
    LiveTimerRefreshesPerFiring(ToggleAutoRefresher(s), n);
  }

  /** Enable, let the timer fire `n` times, disable, then any firings: exactly `n + 1`
      refreshes in all, and auto-refresh ends disabled with no live timer. */
  lemma EnableFireDisable(s: State, n: nat, later: seq<Event>)
    requires Inv(s) && !s.enabled && OnlyTimerFirings(later)
    ensures var t := Run(s, [ClickToggle] + Firings(s.nextId, n) + [ClickToggle] + later);
      t.refreshes == s.refreshes + 1 + n && !t.enabled && t.active == map[]
  {
    var on := ToggleAutoRefresher(s);
    ToggleOn(s);
    var firings := Firings(s.nextId, n);
    LiveTimerRefreshesPerFiring(on, n);
    var fired := Run(on, firings);
    RunCons(s, ClickToggle, firings);
    assert [ClickToggle] + firings + [ClickToggle] + later == ([ClickToggle] + firings) + ([ClickToggle] + later);
    RunAppend(s, [ClickToggle] + firings, [ClickToggle] + later);
    NoRefreshAfterToggleOff(fired, later);
  }

  /** Running two event sequences one after the other is running their concatenation. */
  lemma {:induction false} RunAppend(s: State, a: seq<Event>, b: seq<Event>)
    ensures Run(s, a + b) == Run(Run(s, a), b)
    decreases |a|
  {
    if a == [] {
      assert a + b == b;
    } else {
      assert a + b != [] && (a + b)[0] == a[0] && (a + b)[1..] == a[1..] + b;
      RunAppend(Step(s, a[0]), a[1..], b);
    }
  }
}
