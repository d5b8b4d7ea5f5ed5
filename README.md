# Auto-refresh toggle of the Refresher widget

The `web_refresher_auto` module adds a periodic auto-refresh toggle next to the manual
refresh button of a web client's control panel. It patches the `Refresher` widget
(`web_refresher_auto/static/src/js/refresher.esm.js`) with a small state machine:

- an enabled flag (`state.autoRefresherEnabled`), false after `setup`;
- an interval in milliseconds (`autoRefresherIntervalTime`), taken from the
  `autoRefresherIntervalTime` prop or 60000 when that prop is absent or falsy;
- a handle (`autoRefresherInterval`) to the recurring timer started by `setInterval`.

Toggling on refreshes once right away and starts a recurring timer whose callback is
the widget's `onClickRefresh`. Toggling off cancels the timer. A props update with a
different interval cancels the timer, stores the new prop and re-arms the timer when
enabled. Unmounting cancels the timer.

This project models that state machine in Dafny and proves that the timer never leaks:
at most one timer is live, it is the one the stored handle names, it runs at the current
interval, it is live only while enabled, and while the widget is mounted it is live
whenever the flag is on.

## Structure

- `js_values.dfy` (module `JsValues`): an optional Number prop (`None` is `undefined`),
  JavaScript truthiness and `a || b`.
- `timers.dfy` (module `Timers`): class `TimerHost`, the host's `setInterval` /
  `clearInterval`, as a map of uncancelled timer ids to their delays and the next id.
- `refresher_spec.dfy` (module `RefresherSpec`): datatype `State`, a snapshot of the
  widget fields, of the live timers and of two observations: how often
  `onClickRefresh` has been called and whether `willUnmount` has run. It has one function
  per method of the patch (`Setup`, `SetupAutoRefresher`, `ClearAutoRefresher`,
  `ToggleAutoRefresher`, `WillUpdateProps`, `WillUnmount`), `Tick` for a timer firing,
  the invariant `Inv`, and lemmas stating what each operation does.
- `refresher_traces.dfy` (module `RefresherTraces`): arbitrary sequences of events
  (toggle clicks, props updates, timer firings, unmounting) run by `Run`, and lemmas
  about what happens across them.
- `refresher.dfy` (module `AutoRefresher`): class `Refresher` with the patched
  widget's fields. Its methods update them and the host's timers in place. Each method
  that models a method of the source ensures `Model() == Spec.<Operation>(old(Model()))`.
  The lifecycle hooks, the toggle and `Tick` also keep `Valid()`. `SetupAutoRefresher`
  and `ClearAutoRefresher` are intermediate steps: called on their own they need not keep
  it (`ArmingWithoutClearLeaks`). `OnClickRefresh` stands for the host's refresh and only
  counts the call.

The operations are written twice on purpose. The functions of `RefresherSpec` are
values that lemmas can combine (two toggles in a row, any sequence of events). The
methods of `Refresher` change fields and timers in place, as the source does, and each
is proved equal to its function. What is proved about the functions therefore holds
of the methods.

## Behaviour as written

The model follows the code in `refresher.esm.js`. In these places the code behaves in ways a
reader may not expect:

- `clearAutoRefresher` cancels the timer but never resets the stored handle
  (lines 65-69). After a clear the handle can name a cancelled timer. "No live timer"
  is therefore stated over the host's live timers, never over the handle.
- The props hook compares the next prop with the previous prop, not with the stored
  interval (lines 35-38). It stores the new prop verbatim, without the `|| 60000`
  default of `setup` (line 40). Going from an absent prop to an explicit `60000`
  therefore re-arms the timer even though the interval stays the same.
- A props update while enabled re-arms through `setupAutoRefresher`, which calls
  `onClickRefresh` immediately (lines 42, 55). So a reconfiguration while enabled fires
  one immediate refresh as well as restarting the timer (`UpdatePropsChanged`).
- After `willUnmount` the flag is left as it was. `Inv` requires "live iff enabled"
  only while the widget is mounted.

## Model

| member | source | states |
|---|---|---|
| `RefresherSpec.Setup` | web_refresher_auto/static/src/js/refresher.esm.js:17-26 | after setup the flag is off, no timer is live, no refresh has fired, the invariant holds, and the interval is the prop when it is truthy, else 60000 |
| `RefresherSpec.AtMostOneTimer` | web_refresher_auto/static/src/js/refresher.esm.js:53-69 | when every live timer is the one the handle names, at most one timer is live, and the live set is empty or exactly the handle's timer |
| `RefresherSpec.LiveTimerIffEnabled` | web_refresher_auto/static/src/js/refresher.esm.js:53-81 | in a mounted widget satisfying the invariant, exactly one timer is live iff auto-refresh is enabled, and none is live iff it is disabled |
| `RefresherSpec.ArmingWithoutClearLeaks` | web_refresher_auto/static/src/js/refresher.esm.js:53-60 | arming while the timer of an enabled, mounted widget is live leaves two live timers, the old one still running, and breaks the invariant; this is why every re-arm follows a clear |
| `RefresherSpec.ClearCancelsAll` | web_refresher_auto/static/src/js/refresher.esm.js:65-69 | clearing cancels every live timer and changes nothing else; the now stale handle stays stored |
| `RefresherSpec.ClearIdempotent` | web_refresher_auto/static/src/js/refresher.esm.js:65-69 | clearing twice has the same effect as clearing once, from any state |
| `RefresherSpec.ToggleOff` | web_refresher_auto/static/src/js/refresher.esm.js:75-81 | toggling from enabled turns the flag off, cancels the live timer, starts no timer, fires no refresh and keeps the invariant |
| `RefresherSpec.ToggleOn` | web_refresher_auto/static/src/js/refresher.esm.js:53-81 | toggling from disabled turns the flag on, fires exactly one refresh, and leaves exactly one live timer: a newly allocated one, named by the handle, at the current interval |
| `RefresherSpec.ToggleKeepsInv` | web_refresher_auto/static/src/js/refresher.esm.js:75-81 | the toggle keeps the invariant, because it clears before it re-arms |
| `RefresherSpec.ToggleTwice` | web_refresher_auto/static/src/js/refresher.esm.js:76 | two toggles give back the original flag, prop and interval, with one refresh in between; from disabled no timer is left, from enabled a fresh timer replaces the old one |
| `RefresherSpec.UpdatePropsUnchanged` | web_refresher_auto/static/src/js/refresher.esm.js:35-38 | a props update equal to the previous prop changes nothing: no timer cancelled or created, same interval, no refresh |
| `RefresherSpec.UpdatePropsChanged` | web_refresher_auto/static/src/js/refresher.esm.js:34-45 | a props update with a different value cancels the live timer, stores the new prop verbatim as the interval, keeps the flag, and only when enabled starts one new timer at the new interval and fires one refresh |
| `RefresherSpec.UpdatePropsKeepsInv` | web_refresher_auto/static/src/js/refresher.esm.js:34-45 | every props update keeps the invariant |
| `RefresherSpec.UnmountClears` | web_refresher_auto/static/src/js/refresher.esm.js:89-92 | from any state satisfying the invariant (every reachable one), unmount leaves no live timer; handle, flag and refresh count are unchanged and the invariant holds |
| `RefresherSpec.UnmountIdempotent` | web_refresher_auto/static/src/js/refresher.esm.js:89-91 | unmounting twice equals unmounting once, although the stale handle is still stored |
| `RefresherSpec.TickRefreshesLiveTimerOnly` | web_refresher_auto/static/src/js/refresher.esm.js:56-58 | a timer firing refreshes once when that timer is live, not at all otherwise, and changes nothing else |
| `RefresherTraces.StepKeepsInv` | web_refresher_auto/static/src/js/refresher.esm.js:34-92 | each event (toggle click, props update, unmount, timer firing) keeps the invariant |
| `RefresherTraces.Run` | web_refresher_auto/static/src/js/refresher.esm.js:34-92 | across any sequence of events the invariant is kept and the refresh count never decreases |
| `RefresherTraces.ReachableAtMostOneTimer` | web_refresher_auto/static/src/js/refresher.esm.js:17-92 | every state reachable from setup satisfies the invariant and has at most one live timer |
| `RefresherTraces.SilentWithoutLiveTimer` | web_refresher_auto/static/src/js/refresher.esm.js:56-58 | with no live timer, any number of timer firings changes nothing |
| `RefresherTraces.NoRefreshAfterToggleOff` | web_refresher_auto/static/src/js/refresher.esm.js:75-81 | after toggling off, no later timer firing refreshes |
| `RefresherTraces.NoRefreshAfterUnmount` | web_refresher_auto/static/src/js/refresher.esm.js:89-92 | after unmounting, no timer is live and no later timer firing refreshes |
| `RefresherTraces.LiveTimerRefreshesPerFiring` | web_refresher_auto/static/src/js/refresher.esm.js:56-58 | n firings of the live timer add exactly n refreshes and change nothing else |
| `RefresherTraces.ToggleOnThenFirings` | web_refresher_auto/static/src/js/refresher.esm.js:53-81 | toggling on and then n firings of the new timer give n + 1 refreshes |
| `RefresherTraces.EnableFireDisable` | web_refresher_auto/static/tests/web_refresher_auto.esm.js:128-164 | enable, n firings, disable, then any firings: exactly n + 1 refreshes, flag off, no live timer |
| `Timers.TimerHost.SetInterval` | web_refresher_auto/static/src/js/refresher.esm.js:56-58 | keeps the host's invariant (live ids are positive and below the next id); scheduling returns the next id, which was not live, and adds it with its delay to the live timers |
| `Timers.TimerHost.ClearInterval` | web_refresher_auto/static/src/js/refresher.esm.js:67 | cancelling removes exactly that id from the live timers; an unknown id is ignored |
| `AutoRefresher.Refresher.constructor` | web_refresher_auto/static/src/js/refresher.esm.js:17-26 | the new widget satisfies the invariant and its state is `Setup` of the prop: flag off, no live timer, no refresh |
| `AutoRefresher.Refresher.OnClickRefresh` | web_refresher_auto/static/src/js/refresher.esm.js:55 | each call of the host's manual refresh is counted once |
| `AutoRefresher.Refresher.SetupAutoRefresher` | web_refresher_auto/static/src/js/refresher.esm.js:53-60 | the new state is `SetupAutoRefresher` of the old: when enabled, one refresh and one new timer at the current interval, whose id the handle stores |
| `AutoRefresher.Refresher.ClearAutoRefresher` | web_refresher_auto/static/src/js/refresher.esm.js:65-69 | the new state is `ClearAutoRefresher` of the old: the timer a truthy handle names is cancelled; the handle is kept |
| `AutoRefresher.Refresher.OnClickToggleAutoRefresher` | web_refresher_auto/static/src/js/refresher.esm.js:75-81 | keeps the invariant; flips the flag; from enabled, no live timer and no refresh; from disabled, one refresh and exactly the handle's timer live at the current interval |
| `AutoRefresher.Refresher.OnWillUpdateProps` | web_refresher_auto/static/src/js/refresher.esm.js:34-45 | keeps the invariant; the flag is unchanged and the props are the next ones; an equal prop changes nothing else, a different one becomes the interval |
| `AutoRefresher.Refresher.WillUnmount` | web_refresher_auto/static/src/js/refresher.esm.js:89-92 | keeps the invariant and leaves no live timer, with the old handle still stored |
| `AutoRefresher.Refresher.Tick` | web_refresher_auto/static/src/js/refresher.esm.js:56-58 | keeps the invariant; a firing refreshes only when the timer is live |
| `AutoRefresher.ToggleTwiceScenario` | web_refresher_auto/static/tests/web_refresher_auto.esm.js:106-126 | a fresh widget toggled once is checked and toggled again is unchecked |

## Left out

- The `patch(...)` mechanism and the `Refresher.props` declaration (lines 9 and 98-103): framework plumbing. The model is the patched widget itself.
- The `_super` / `super.willUnmount()` calls (lines 18 and 91) go to the host widget, which is not part of this model.
- OWL reactivity (`useState`, re-rendering) and the registration of lifecycle hooks: the hooks are plain methods. OWL installs the next props after `onWillUpdateProps`; `WillUpdateProps` and `OnWillUpdateProps` include that step.
- `onClickRefresh` belongs to the host widget and is debounced there: the model counts its calls and does nothing else.
- Wall-clock timing of `setInterval` and refreshes still in flight when the next firing comes: timer firings are events that the environment issues in any order. They are not scheduled at multiples of the delay.
- The host's timer table is private to one widget: timers of other components are not modelled. Timer ids are handed out as 1, 2, 3, and so on.
- The props are an optional integer; NaN and other non-integer Numbers are not modelled, so the only falsy Number is 0.
- `control_panel.esm.js` only gives the prop its constant default of 60000, and `__manifest__.py` only registers assets; neither is part of this model.
- The QUnit tests are used as evidence, not modelled (DOM clicks, `delay`).
