/** The Refresher widget as patched by the auto-refresh extension: an object whose
    lifecycle hooks and click handler update its fields and the host's timers in place.
    Each method is specified by the function of RefresherSpec that models it. */
module AutoRefresher {
  import opened JsValues
  import opened Timers
  import Spec = RefresherSpec

  class Refresher {
    /** The host's timer facility. */
    const timers: TimerHost
    /** `this.props.autoRefresherIntervalTime`, as last installed by the framework. */
    var props: Option<int>
    /** `this.autoRefresherIntervalTime`. */
    var intervalTime: Option<int>
    /** `this.state.autoRefresherEnabled`, which the toggle control shows. */
    var enabled: bool
    /** `this.autoRefresherInterval`: the last timer handle; never reset after a clear. */
    var intervalHandle: Option<TimerId>
    /** How often the host's `onClickRefresh` has been called. */
    ghost var refreshes: nat
    /** Whether `willUnmount` has run. */
    ghost var unmounted: bool

    ghost function Model(): Spec.State
      reads this, timers
    {
      Spec.State(props, intervalTime, enabled, intervalHandle, timers.active, timers.nextId, refreshes, unmounted)
    }

    ghost predicate Valid()
      reads this, timers
    {
      timers.Valid() && Spec.Inv(Model())
    }

    /** `setup()`. */
    constructor (initialProps: Option<int>)
      ensures Valid() && fresh(timers)
      ensures Model() == Spec.Setup(initialProps)
      ensures !enabled && timers.active == map[] && refreshes == 0
    {
      timers := new TimerHost();
      props := initialProps;
      intervalTime := Or(initialProps, Some(Spec.DefaultIntervalTime));
      enabled := false;
      intervalHandle := None;
      refreshes := 0;
      unmounted := false;
      new;
      SetupAutoRefresher();
    }

    /** The host widget's manual refresh, called here as an opaque action that is counted. */
    method OnClickRefresh()
      modifies this`refreshes
      ensures refreshes == old(refreshes) + 1
    {
      refreshes := refreshes + 1;
    }

    /** `setupAutoRefresher()`. */
    method SetupAutoRefresher()
      requires timers.Valid()
      modifies this, timers
      ensures timers.Valid()
      ensures Model() == Spec.SetupAutoRefresher(old(Model()))
    {
      if enabled {
        OnClickRefresh();
        var id := timers.SetInterval(intervalTime);
        intervalHandle := Some(id);
      }
    }

    /** `clearAutoRefresher()`. */
    method ClearAutoRefresher()
      requires timers.Valid()
      modifies timers
      ensures timers.Valid()
      ensures Model() == Spec.ClearAutoRefresher(old(Model()))
    {
      if Truthy(intervalHandle) {
        timers.ClearInterval(intervalHandle.value);
      }
    }

    /** `onClickToggleAutoRefresher()`. */
    method OnClickToggleAutoRefresher()
      requires Valid()
      modifies this, timers
      ensures Valid()
      ensures Model() == Spec.ToggleAutoRefresher(old(Model()))
      ensures enabled == !old(enabled)
      ensures old(enabled) ==> timers.active == map[] && refreshes == old(refreshes)
      ensures !old(enabled) ==> refreshes == old(refreshes) + 1
                                && timers.active == map[intervalHandle.value := intervalTime]
    {
      enabled := !enabled;
      ClearAutoRefresher();
      if enabled {
        SetupAutoRefresher();
      }
      Spec.ToggleKeepsInv(old(Model()));
      if old(enabled) { Spec.ToggleOff(old(Model())); } else { Spec.ToggleOn(old(Model())); }
    }

    /** The `onWillUpdateProps` hook, after which the framework installs `nextProps`. */
    method OnWillUpdateProps(nextProps: Option<int>)
      requires Valid()
      modifies this, timers
      ensures Valid()
      ensures Model() == Spec.WillUpdateProps(old(Model()), nextProps)
      ensures enabled == old(enabled) && props == nextProps
      ensures nextProps == old(props) ==> Model() == old(Model())
      ensures nextProps != old(props) ==> intervalTime == nextProps
    {
      if nextProps != props {
        ClearAutoRefresher();
        intervalTime := nextProps;
        if enabled {
          SetupAutoRefresher();
        }
      }
      props := nextProps;
      Spec.UpdatePropsKeepsInv(old(Model()), nextProps);
    }

    /** `willUnmount()`. */
    method WillUnmount()
      requires Valid()
      modifies this, timers
      ensures Valid()
      ensures Model() == Spec.WillUnmount(old(Model()))
      ensures timers.active == map[] && intervalHandle == old(intervalHandle)
    {
      ClearAutoRefresher();
      unmounted := true;
      Spec.UnmountClears(old(Model()));
    }

    /** The host firing timer `id`, whose callback is `onClickRefresh`. */
    method Tick(id: TimerId)
      requires Valid()
      modifies this`refreshes
      ensures Valid()
      ensures Model() == Spec.Tick(old(Model()), id)
    {
      if id in timers.active {
        OnClickRefresh();
      }
    }
  }

  /** Clicking the toggle twice, as the widget's test does: checked, then unchecked, with
      one immediate refresh in between and no timer left running. */
  method ToggleTwiceScenario(initialProps: Option<int>) returns (checkedAfterFirst: bool, checkedAfterSecond: bool)
    ensures checkedAfterFirst && !checkedAfterSecond
  {
    var r := new Refresher(initialProps);
    r.OnClickToggleAutoRefresher();
    checkedAfterFirst := r.enabled;
    r.OnClickToggleAutoRefresher();
    checkedAfterSecond := r.enabled;
    assert r.timers.active == map[] && r.refreshes == 1;
  }
}
