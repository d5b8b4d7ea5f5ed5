/** The auto-refresh state machine of the Refresher widget, as pure functions on
    a snapshot of the widget and of its host timers: one function per method of
    the patched widget, the state invariant, and what each method does to it. */
module RefresherSpec {
  import opened JsValues
  import opened Timers

  /** The interval used when the prop is absent or falsy: one minute, in milliseconds. */
  const DefaultIntervalTime: int := 60000

  /** Everything the auto-refresher reads or changes, plus two observations. */
  datatype State = State(
    props: Option<int>,                // this.props.autoRefresherIntervalTime
    intervalTime: Option<int>,         // this.autoRefresherIntervalTime
    enabled: bool,                     // this.state.autoRefresherEnabled
    handle: Option<TimerId>,           // this.autoRefresherInterval
    active: map<TimerId, Option<int>>, // host: uncancelled interval timers and their delays
    nextId: TimerId,                   // host: the id the next setInterval returns
    refreshes: nat,                    // how often onClickRefresh has been called
    unmounted: bool)                   // whether willUnmount has run

  /** The state invariant: at most one live timer, the one the handle names, running at
      the current interval and only while enabled; while mounted, enabled means it runs. */
  predicate Inv(s: State) {
    && s.nextId >= 1
    && HandleNamesLiveTimers(s)
    && (forall id :: id in s.active ==> s.active[id] == s.intervalTime && s.enabled)
    && (s.enabled && !s.unmounted ==> s.handle.Some? && s.handle.value in s.active)
  }

  /** The stored handle, when set, is a (truthy) id already handed out, and every live
      timer is the one it names. */
  predicate HandleNamesLiveTimers(s: State) {
    && (s.handle.Some? ==> 1 <= s.handle.value < s.nextId)
    && (forall id :: id in s.active ==> s.handle == Some(id))
  }

  /** `setup()`: the interval is the prop or the default, auto-refresh starts disabled,
      and the (then idle) `setupAutoRefresher` is called. */
  function Setup(initialProps: Option<int>): (s: State)
    ensures Inv(s)
    ensures s.props == initialProps && !s.enabled && !s.unmounted
    ensures s.active == map[] && s.refreshes == 0
    ensures Truthy(initialProps) ==> s.intervalTime == initialProps
    ensures !Truthy(initialProps) ==> s.intervalTime == Some(DefaultIntervalTime)
  {
    var initial := State(initialProps, Or(initialProps, Some(DefaultIntervalTime)), false, None, map[], 1, 0, false);
    SetupAutoRefresher(initial)
  }

  /** `setupAutoRefresher()`: when enabled, refresh once right away and start a recurring
      timer at the current interval, remembering its handle. */
  function SetupAutoRefresher(s: State): State {
    if s.enabled then
      var id := s.nextId;
      s.(refreshes := s.refreshes + 1, handle := Some(id), active := s.active[id := s.intervalTime], nextId := id + 1)
    else
      s
  }

  /** `clearAutoRefresher()`: cancel the timer the handle names, if the handle is truthy.
      The handle itself is kept. */
  function ClearAutoRefresher(s: State): State {
    if Truthy(s.handle) then s.(active := s.active - {s.handle.value}) else s
  }

  /** `onClickToggleAutoRefresher()`: flip the flag, clear, and set up again when enabled. */
  function ToggleAutoRefresher(s: State): State {
    var flipped := s.(enabled := !s.enabled);
    var cleared := ClearAutoRefresher(flipped);
    if cleared.enabled then SetupAutoRefresher(cleared) else cleared
  }

  /** The `onWillUpdateProps` hook, followed by the framework installing the next props.
      The next prop is compared with the previous prop (not with the stored interval) and,
      when it differs, stored as the interval verbatim (no default applied). */
  function WillUpdateProps(s: State, nextProps: Option<int>): State {
    var updated :=
      if nextProps != s.props then
        var cleared := ClearAutoRefresher(s).(intervalTime := nextProps);
        if cleared.enabled then SetupAutoRefresher(cleared) else cleared
      else
        s;
    updated.(props := nextProps)
  }

  /** `willUnmount()`: clear the auto-refresher; the widget is gone afterwards. */
  function WillUnmount(s: State): State {
    ClearAutoRefresher(s).(unmounted := true)
  }

  /** The host firing timer `id`: only an uncancelled timer calls back `onClickRefresh`. */
  function Tick(s: State, id: TimerId): State {
    if id in s.active then s.(refreshes := s.refreshes + 1) else s
  }

  // ---------------------------------------------------------------------------
  // The invariant, spelled out

  /** No timer leaks: besides the one the handle names, no timer is live. */
  lemma AtMostOneTimer(s: State)
    requires HandleNamesLiveTimers(s)
    ensures |s.active| <= 1
    ensures s.active == map[] || (s.handle.Some? && s.active.Keys == {s.handle.value})
  {
    if s.handle.Some? {
      var h := s.handle.value;
      forall other | other in s.active ensures other == h {
        assert s.handle == Some(other);
      }
      if h in s.active {
        assert s.active.Keys == {h};
      } else {
        assert s.active.Keys == {};
      }
    } else {
      assert forall id :: id in s.active ==> s.handle == Some(id);
      assert s.active.Keys == {};
    }
  }

  /** While the widget is mounted, a timer is live exactly when auto-refresh is enabled. */
  lemma LiveTimerIffEnabled(s: State)
    requires Inv(s) && !s.unmounted
    ensures s.enabled <==> |s.active| == 1
    ensures !s.enabled <==> s.active == map[]
  {
    AtMostOneTimer(s);
  }

  /** Why every re-arm must follow a clear: arming again while the timer runs leaves the
      old timer live beside the new one, and the invariant is lost. */
  lemma ArmingWithoutClearLeaks(s: State)
    requires Inv(s) && s.enabled && !s.unmounted
    ensures var t := SetupAutoRefresher(s);
      && |t.active| == 2 && s.handle.value in t.active && t.handle != s.handle && !Inv(t)
  {
    var h := s.handle.value;
    var t := SetupAutoRefresher(s);
    AtMostOneTimer(s);
    assert t.active.Keys == {h, s.nextId};
    assert |{h, s.nextId}| == 2;
  }

  // ---------------------------------------------------------------------------
  // clearAutoRefresher

  /** Clearing cancels every live timer and changes nothing else: the stale handle stays. */
  lemma ClearCancelsAll(s: State)
    requires HandleNamesLiveTimers(s)
    ensures ClearAutoRefresher(s) == s.(active := map[])
  {
    AtMostOneTimer(s);
  }

  /** Clearing twice is the same as clearing once. */
  lemma ClearIdempotent(s: State)
    ensures ClearAutoRefresher(ClearAutoRefresher(s)) == ClearAutoRefresher(s)
  {
  }

  // ---------------------------------------------------------------------------
  // onClickToggleAutoRefresher

  /** Toggling off cancels the live timer, starts none and does not refresh. */
  lemma ToggleOff(s: State)
    requires Inv(s) && s.enabled
    ensures ToggleAutoRefresher(s) == s.(enabled := false, active := map[])
    ensures Inv(ToggleAutoRefresher(s))
  {
    ClearCancelsAll(s.(enabled := false));
  }

  /** Toggling on refreshes exactly once right away and leaves exactly one live timer,
      a new one, running at the current interval. */
  lemma ToggleOn(s: State)
    requires Inv(s) && !s.enabled
    ensures var t := ToggleAutoRefresher(s);
      && t.enabled && t.refreshes == s.refreshes + 1
      && t.handle == Some(s.nextId) && s.nextId !in s.active
      && t.active == map[s.nextId := s.intervalTime]
      && t == s.(enabled := true, refreshes := s.refreshes + 1, handle := Some(s.nextId),
                 active := map[s.nextId := s.intervalTime], nextId := s.nextId + 1)
    ensures Inv(ToggleAutoRefresher(s))
  {
    ClearCancelsAll(s.(enabled := true));
  }

  lemma ToggleKeepsInv(s: State)
    requires Inv(s)
    ensures Inv(ToggleAutoRefresher(s))
  {
    if s.enabled { ToggleOff(s); } else { ToggleOn(s); }
  }

  /** Two toggles give back the original flag. From disabled, they leave no live timer and
      one refresh; from enabled, one refresh and a fresh timer in place of the old one. */
  lemma ToggleTwice(s: State)
    requires Inv(s)
    ensures var t := ToggleAutoRefresher(ToggleAutoRefresher(s));
      && t.enabled == s.enabled && t.refreshes == s.refreshes + 1
      && t.intervalTime == s.intervalTime && t.props == s.props
      && (!s.enabled ==> t.active == map[])
      && (s.enabled ==> t.active == map[s.nextId := s.intervalTime] && s.nextId !in s.active)
  {
    if s.enabled {
      ToggleOff(s);
      ToggleOn(ToggleAutoRefresher(s));
    } else {
      ToggleOn(s);
      ToggleOff(ToggleAutoRefresher(s));
    }
  }

  // ---------------------------------------------------------------------------
  // onWillUpdateProps

  /** An update whose prop equals the previous prop changes nothing at all. */
  lemma UpdatePropsUnchanged(s: State, nextProps: Option<int>)
    requires nextProps == s.props
    ensures WillUpdateProps(s, nextProps) == s
  {
  }

  /** An update with a different prop cancels the live timer, stores the new prop as the
      interval, leaves the flag alone and, only when enabled, refreshes once and starts a
      new timer at the new interval. */
  lemma UpdatePropsChanged(s: State, nextProps: Option<int>)
    requires Inv(s) && nextProps != s.props
    ensures var t := WillUpdateProps(s, nextProps);
      && Inv(t)
      && t.props == nextProps && t.intervalTime == nextProps
      && t.enabled == s.enabled && t.unmounted == s.unmounted
      && (forall id :: id in s.active ==> id !in t.active)
      && (s.enabled ==> t.active == map[s.nextId := nextProps] && t.handle == Some(s.nextId)
                        && t.refreshes == s.refreshes + 1)
      && (!s.enabled ==> t.active == map[] && t.handle == s.handle && t.refreshes == s.refreshes)
  {
    ClearCancelsAll(s);
  }

  lemma UpdatePropsKeepsInv(s: State, nextProps: Option<int>)
    requires Inv(s)
    ensures Inv(WillUpdateProps(s, nextProps))
  {
    if nextProps != s.props { UpdatePropsChanged(s, nextProps); }
  }

  // ---------------------------------------------------------------------------
  // willUnmount

  /** Unmounting leaves no live timer whatever the state, keeps the stale handle and
      does not refresh. */
  lemma UnmountClears(s: State)
    requires Inv(s)
    ensures var t := WillUnmount(s);
      && t.active == map[] && t.handle == s.handle && t.enabled == s.enabled
      && t.refreshes == s.refreshes && t.unmounted && Inv(t)
  {
    ClearCancelsAll(s);
  }

  /** Unmounting twice is harmless: the second clear meets only a cancelled handle. */
  lemma UnmountIdempotent(s: State)
    ensures WillUnmount(WillUnmount(s)) == WillUnmount(s)
  {
    ClearIdempotent(s);
  }

  // ---------------------------------------------------------------------------
  // timer firings

  /** A firing refreshes exactly when the timer is live, and changes nothing else. */
  lemma TickRefreshesLiveTimerOnly(s: State, id: TimerId)
    requires Inv(s)
    ensures Inv(Tick(s, id))
    ensures Tick(s, id).refreshes == if id in s.active then s.refreshes + 1 else s.refreshes
    ensures Tick(s, id).(refreshes := s.refreshes) == s
  {
  }
}
