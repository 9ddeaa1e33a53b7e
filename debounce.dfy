/**
 * The debounced text input: every keystroke updates the shown value at
 * once, and the change callback gets the value only after a quiet period.
 * The state holds the component's own parts (`displayValue`, the ref
 * `timer.current`, the resolved delay, whether it is mounted) and the parts
 * of its environment that decide when the callback runs: the browser's
 * pending timeouts, the clock, and the calls made to the callback so far.
 */
module Debounce {
  import opened Wrappers

  /** The delay used when the prop is not given. */
  const DefaultDelay: nat := 500

  /** The identifier the browser gives the first timeout in this model. */
  const FirstTimerId: nat := 1

  /** `debounceDelay = 500` in the parameter list. */
  function ResolveDelay(d: Option<nat>): (r: nat)
    ensures d.None? ==> r == 500
    ensures d.Some? ==> r == d.value
  {
    d.GetOr(DefaultDelay)
  }

  /** A pending timeout: its identifier, the value its closure captured, and when it fires. */
  datatype Timer = Timer(id: nat, value: string, deadline: int)

  /** One call of the change callback: the value, and the time it happened. */
  datatype Delivery = Delivery(value: string, at: int)

  datatype Input = Input(
    displayValue: string,
    timerRef: Option<nat>,
    timers: seq<Timer>,
    nextId: nat,
    now: int,
    delay: nat,
    mounted: bool,
    delivered: seq<Delivery>)

  /** What can happen to a mounted input. */
  datatype Event =
    | Edited(value: string)           // a keystroke leaves the field with `value`
    | HandlerChanged                  // the parent passes a new `onChange`
    | DelayChanged(delay: Option<nat>) // the parent passes a new `debounceDelay`
    | ValuePropChanged(value: string) // the parent passes a new `value`
    | Elapsed(dt: nat)                // `dt` time units pass
    | Unmounted                       // the component is removed

  /** `clearTimeout(id)`: the timeout with that identifier no longer fires. */
  function ClearTimeout(ts: seq<Timer>, id: nat): (r: seq<Timer>)
    ensures forall t :: t in r <==> t in ts && t.id != id
  {
    if ts == [] then []
    else if ts[0].id == id then ClearTimeout(ts[1..], id)
    else [ts[0]] + ClearTimeout(ts[1..], id)
  }

  /** `if (timer.current) clearTimeout(timer.current)`. */
  function Cancel(s: Input): Input
  {
    if s.timerRef.Some? then s.(timers := ClearTimeout(s.timers, s.timerRef.value)) else s
  }

  /** The effect's body: clear the previous timeout, then schedule `onChange(displayValue)`. */
  function Arm(s: Input): Input
  {
    var c := Cancel(s);
    c.(timers := c.timers + [Timer(c.nextId, c.displayValue, c.now + c.delay)],
       timerRef := Some(c.nextId),
       nextId := c.nextId + 1)
  }

  /** A re-run of the effect: the previous run's cleanup, then the body. */
  function Rerun(s: Input): Input
  {
    Arm(Cancel(s))
  }

  /** The first render and the first run of the effect. */
  function Mount(value: string, delay: Option<nat>, now: int): Input
  {
    Arm(Input(value, None, [], FirstTimerId, now, ResolveDelay(delay), true, []))
  }

  /** The callbacks of the timeouts due by time `t`, in the order they were scheduled. */
  function Due(ts: seq<Timer>, t: int): (r: seq<Delivery>)
    ensures |r| <= |ts|
    ensures forall d :: d in r <==> exists x :: x in ts && x.deadline <= t && d == Delivery(x.value, x.deadline)
  {
    if ts == [] then []
    else if ts[0].deadline <= t then [Delivery(ts[0].value, ts[0].deadline)] + Due(ts[1..], t)
    else Due(ts[1..], t)
  }

  /** The timeouts still pending at time `t`. */
  function NotDue(ts: seq<Timer>, t: int): (r: seq<Timer>)
    ensures forall x :: x in r <==> x in ts && x.deadline > t
  {
    if ts == [] then []
    else if ts[0].deadline <= t then NotDue(ts[1..], t)
    else [ts[0]] + NotDue(ts[1..], t)
  }

  /**
   * One event. The effect re-runs only when one of its dependencies
   * (`displayValue`, `onChange`, `debounceDelay`) changes; setting the
   * state to the value it already has does not re-render.
   */
  function Step(s: Input, e: Event): (r: Input)
    ensures r.displayValue != s.displayValue ==> e == Edited(r.displayValue)
    ensures r.delivered != s.delivered ==> e.Elapsed?
    ensures !s.mounted ==> !r.mounted
  {
    match e
    case Edited(v) => if !s.mounted || v == s.displayValue then s else Rerun(s.(displayValue := v))
    case HandlerChanged => if !s.mounted then s else Rerun(s)
    case DelayChanged(d) =>
      if !s.mounted || ResolveDelay(d) == s.delay then s else Rerun(s.(delay := ResolveDelay(d)))
    case ValuePropChanged(_) => s
    case Elapsed(dt) =>
      var t := s.now + dt;
      s.(now := t, timers := NotDue(s.timers, t), delivered := s.delivered + Due(s.timers, t))
    case Unmounted => if !s.mounted then s else Cancel(s).(mounted := false)
  }

  /** A sequence of events, first to last. */
  function Run(s: Input, es: seq<Event>): Input
    decreases |es|
  {
    if es == [] then s else Run(Step(s, es[0]), es[1..])
  }

  /**
   * The invariant: at most one timeout is pending; it is the one the ref
   * names, it carries the value shown, and it fires within one delay of now;
   * an unmounted input has none.
   */
  ghost predicate Valid(s: Input)
  {
    && |s.timers| <= 1
    && (s.timerRef.Some? ==> s.timerRef.value < s.nextId)
    && (s.timers != [] ==>
          && s.timerRef == Some(s.timers[0].id)
          && s.timers[0].value == s.displayValue
          && s.now <= s.timers[0].deadline <= s.now + s.delay)
    && (!s.mounted ==> s.timers == [])
  }

  /** Just after the effect ran: one timeout, due one full delay from now. */
  ghost predicate Armed(s: Input)
  {
    Valid(s) && s.mounted && |s.timers| == 1 && s.timers[0].deadline == s.now + s.delay
  }

  /** The browser's operations on a queue of one timeout. */
  lemma OneTimer(ts: seq<Timer>, t: int)
    requires |ts| == 1
    ensures ClearTimeout(ts, ts[0].id) == []
    ensures Due(ts, t) == if ts[0].deadline <= t then [Delivery(ts[0].value, ts[0].deadline)] else []
    ensures NotDue(ts, t) == if ts[0].deadline <= t then [] else ts
  {
    assert ts[1..] == [];
  }

  /** In a valid state the cleanup leaves no timeout pending. */
  lemma CancelEmpties(s: Input)
    requires Valid(s)
    ensures Cancel(s).timers == [] && Cancel(s).timerRef == s.timerRef
  {
    if s.timers != [] {
      OneTimer(s.timers, s.now);
    }
  }

  /** A re-run of the effect on a mounted valid state leaves it armed with the display value. */
  lemma RerunArms(s: Input)
    requires && |s.timers| <= 1 && s.mounted
             && (s.timerRef.Some? ==> s.timerRef.value < s.nextId)
             && (s.timers != [] ==> s.timerRef == Some(s.timers[0].id))
    ensures var r := Rerun(s);
            && Armed(r) && r.timers[0].value == s.displayValue
            && r.displayValue == s.displayValue && r.now == s.now && r.delay == s.delay
            && r.delivered == s.delivered
  {
    var c := Cancel(s);
    if s.timers != [] {
      OneTimer(s.timers, s.now);
    }
    assert c.timers == [];
    assert Cancel(c).timers == [];
  }

  /** The first render leaves the input armed with the `value` prop, after the resolved delay. */
  lemma MountArmed(value: string, delay: Option<nat>, now: int)
    ensures var s := Mount(value, delay, now);
            Armed(s) && s.displayValue == value && s.delay == ResolveDelay(delay) && s.delivered == []
  {
  }

  /** Every event keeps the invariant; so at most one timeout is ever pending. */
  lemma StepValid(s: Input, e: Event)
    requires Valid(s)
    ensures Valid(Step(s, e))
  {
    match e
    case Edited(v) =>
      if s.mounted && v != s.displayValue {
        RerunArms(s.(displayValue := v));
      }
    case HandlerChanged =>
      if s.mounted {
        RerunArms(s);
      }
    case DelayChanged(d) =>
      if s.mounted && ResolveDelay(d) != s.delay {
        RerunArms(s.(delay := ResolveDelay(d)));
      }
    case ValuePropChanged(_) =>
    case Elapsed(dt) =>
      if s.timers != [] {
        OneTimer(s.timers, s.now + dt);
      }
    case Unmounted =>
      CancelEmpties(s);
  }

  /** Any run of events keeps the invariant. */
  lemma {:induction false} RunValid(s: Input, es: seq<Event>)
    requires Valid(s)
    ensures Valid(Run(s, es))
    decreases |es|
  {
    if es != [] {
      StepValid(s, es[0]);
      RunValid(Step(s, es[0]), es[1..]);
    }
  }

  /** Running two event sequences one after the other. */
  lemma {:induction false} RunAppend(s: Input, a: seq<Event>, b: seq<Event>)
    ensures Run(s, a + b) == Run(Run(s, a), b)
    decreases |a|
  {
    if a == [] {
      assert a + b == b;
    } else {
      assert (a + b)[0] == a[0];
      assert (a + b)[1..] == a[1..] + b;
      RunAppend(Step(s, a[0]), a[1..], b);
    }
  }

  /** Once unmounted, nothing more is delivered, whatever happens. */
  lemma {:induction false} SilentAfterUnmount(s: Input, es: seq<Event>)
    requires Valid(s)
    ensures Run(Step(s, Unmounted), es).delivered == s.delivered
  {
    var u := Step(s, Unmounted);
    CancelEmpties(s);
    StepValid(s, Unmounted);
    SilentWhileUnmounted(u, es);
  }

  lemma {:induction false} SilentWhileUnmounted(s: Input, es: seq<Event>)
    requires Valid(s) && !s.mounted
    ensures Run(s, es).delivered == s.delivered
    decreases |es|
  {
    if es != [] {
      var n := Step(s, es[0]);
      StepValid(s, es[0]);
      assert n.timers == [];
      assert n.delivered == s.delivered by {
        if es[0].Elapsed? {
          assert Due(s.timers, s.now + es[0].dt) == [];
        }
      }
      SilentWhileUnmounted(n, es[1..]);
    }
  }

  /** One keystroke of a burst: a pause, then the field's new value. */
  datatype Keystroke = Keystroke(pause: nat, value: string)

  /** The events of a burst of keystrokes. */
  function Typing(ks: seq<Keystroke>): seq<Event>
  {
    if ks == [] then [] else [Elapsed(ks[0].pause), Edited(ks[0].value)] + Typing(ks[1..])
  }

  /** The time a burst takes. */
  function TotalPause(ks: seq<Keystroke>): nat
  {
    if ks == [] then 0 else ks[0].pause + TotalPause(ks[1..])
  }

  /** The value the field holds after the burst, starting from `start`. */
  function Final(start: string, ks: seq<Keystroke>): string
    decreases |ks|
  {
    if ks == [] then start else Final(ks[0].value, ks[1..])
  }

  /** Every keystroke changes the field's value. */
  predicate EachChanges(start: string, ks: seq<Keystroke>)
    decreases |ks|
  {
    ks == [] || (ks[0].value != start && EachChanges(ks[0].value, ks[1..]))
  }

  /** Every keystroke comes within the delay of the one before. */
  predicate Quick(ks: seq<Keystroke>, delay: nat)
  {
    forall i :: 0 <= i < |ks| ==> ks[i].pause < delay
  }

  /** A burst from an armed state delivers nothing and leaves it armed with the final value. */
  lemma {:induction false} BurstStaysArmed(s: Input, ks: seq<Keystroke>)
    requires Armed(s) && Quick(ks, s.delay) && EachChanges(s.displayValue, ks)
    ensures var r := Run(s, Typing(ks));
            && Armed(r) && r.displayValue == Final(s.displayValue, ks)
            && r.delivered == s.delivered && r.now == s.now + TotalPause(ks) && r.delay == s.delay
    decreases |ks|
  {
    if ks != [] {
      var k := ks[0];
      var es := [Elapsed(k.pause), Edited(k.value)] + Typing(ks[1..]);
      assert es[0] == Elapsed(k.pause);
      assert es[1..] == [Edited(k.value)] + Typing(ks[1..]);
      assert es[1..][0] == Edited(k.value) && es[1..][1..] == Typing(ks[1..]);
      var s1 := Step(s, Elapsed(k.pause));
      OneTimer(s.timers, s.now + k.pause);
      assert s1.timers == s.timers && s1.delivered == s.delivered;
      var s2 := Step(s1, Edited(k.value));
      RerunArms(s1.(displayValue := k.value));
      assert Quick(ks[1..], s.delay) by {
        forall i | 0 <= i < |ks[1..]| ensures ks[1..][i].pause < s.delay {
          assert ks[1..][i] == ks[i + 1];
        }
      }
      BurstStaysArmed(s2, ks[1..]);
      assert Run(s, es) == Run(s2, Typing(ks[1..]));
    }
  }

  /** From an armed state, waiting `d`: nothing before the delay, one delivery of the shown value at it. */
  lemma QuietPeriod(s: Input, d: nat)
    requires Armed(s)
    ensures var r := Step(s, Elapsed(d));
            && (d < s.delay ==> r.delivered == s.delivered)
            && (d >= s.delay ==> r.delivered == s.delivered + [Delivery(s.displayValue, s.now + s.delay)] && r.timers == [])
  {
    OneTimer(s.timers, s.now + d);
  }

  /**
   * A burst of keystrokes, each within the delay of the previous one, followed
   * by a wait of `d`: nothing is delivered while `d` is shorter than the
   * delay; once it reaches the delay, the final value is delivered exactly
   * once, one delay after the last keystroke.
   */
  lemma DebouncedOnce(s: Input, ks: seq<Keystroke>, d: nat)
    requires Armed(s) && Quick(ks, s.delay) && EachChanges(s.displayValue, ks)
    ensures var r := Run(s, Typing(ks) + [Elapsed(d)]);
            && (d < s.delay ==> r.delivered == s.delivered)
            && (d >= s.delay ==> r.delivered == s.delivered + [Delivery(Final(s.displayValue, ks), s.now + TotalPause(ks) + s.delay)])
  {
    RunAppend(s, Typing(ks), [Elapsed(d)]);
    BurstStaysArmed(s, ks);
    var b := Run(s, Typing(ks));
    QuietPeriod(b, d);
    assert Run(b, [Elapsed(d)]) == Step(b, Elapsed(d));
  }

  /**
   * Typing into an idle input (mounted, no timeout pending, say long after
   * the mount timer fired): the first keystroke may come after any pause,
   * the rest within the delay of each other; a wait of `d` then delivers
   * nothing while it is shorter than the delay and, once it reaches it, the
   * final value exactly once, one delay after the last keystroke.
   */
  lemma {:induction false} DebouncedAfterIdle(s: Input, ks: seq<Keystroke>, d: nat)
    requires Valid(s) && s.mounted && s.timers == []
    requires ks != [] && ks[0].value != s.displayValue
    requires Quick(ks[1..], s.delay) && EachChanges(ks[0].value, ks[1..])
    ensures var r := Run(s, Typing(ks) + [Elapsed(d)]);
            && (d < s.delay ==> r.delivered == s.delivered)
            && (d >= s.delay ==> r.delivered == s.delivered + [Delivery(Final(s.displayValue, ks), s.now + TotalPause(ks) + s.delay)])
  {
    var k := ks[0];
    var rest := Typing(ks[1..]) + [Elapsed(d)];
    var es := Typing(ks) + [Elapsed(d)];
    assert es == [Elapsed(k.pause)] + ([Edited(k.value)] + rest);
    var s1 := Step(s, Elapsed(k.pause));
    assert s1.timers == [] && s1.delivered == s.delivered;
    var s2 := Step(s1, Edited(k.value));
    RerunArms(s1.(displayValue := k.value));
    assert Run(s, es) == Run(s1, [Edited(k.value)] + rest);
    assert Run(s1, [Edited(k.value)] + rest) == Run(s2, rest);
    DebouncedOnce(s2, ks[1..], d);
  }

  /** The component with its environment; each method is one event. */
  class DebouncedInput {
    var displayValue: string
    var timerRef: Option<nat>
    var timers: seq<Timer>
    var nextId: nat
    var now: int
    var delay: nat
    var mounted: bool
    var delivered: seq<Delivery>

    function State(): Input
      reads this
    {
      Input(displayValue, timerRef, timers, nextId, now, delay, mounted, delivered)
    }

    constructor (value: string, debounceDelay: Option<nat>, clock: int)
      ensures State() == Mount(value, debounceDelay, clock) && Valid(State())
    {
      displayValue := value;
      timerRef := None;
      timers := [];
      nextId := FirstTimerId;
      now := clock;
      delay := ResolveDelay(debounceDelay);
      mounted := true;
      delivered := [];
      new;
      ArmTimer();
      MountArmed(value, debounceDelay, clock);
    }

    /** `if (timer.current) clearTimeout(timer.current)`. */
    method CancelTimer()
      modifies this
      ensures State() == Cancel(old(State()))
    {
      if timerRef.Some? {
        timers := ClearTimeout(timers, timerRef.value);
      }
    }

    /** The effect's body. */
    method ArmTimer()
      modifies this
      ensures State() == Arm(old(State()))
    {
      CancelTimer();
      timers := timers + [Timer(nextId, displayValue, now + delay)];
      timerRef := Some(nextId);
      nextId := nextId + 1;
    }

    /** A re-run of the effect: cleanup, then body. */
    method RunEffect()
      modifies this
      ensures State() == Rerun(old(State()))
    {
      CancelTimer();
      ArmTimer();
    }

    /** `handleChange`: `setDisplayValue(event.target.value)`, then the effect if the value changed. */
    method HandleChange(value: string)
      requires Valid(State())
      modifies this
      ensures State() == Step(old(State()), Edited(value)) && Valid(State())
    {
      StepValid(State(), Edited(value));
      if mounted && value != displayValue {
        displayValue := value;
        RunEffect();
      }
    }

    /** A render with a new `onChange`. */
    method SetOnChange()
      requires Valid(State())
      modifies this
      ensures State() == Step(old(State()), HandlerChanged) && Valid(State())
    {
      StepValid(State(), HandlerChanged);
      if mounted {
        RunEffect();
      }
    }

    /** A render with a new `debounceDelay`. */
    method SetDelay(debounceDelay: Option<nat>)
      requires Valid(State())
      modifies this
      ensures State() == Step(old(State()), DelayChanged(debounceDelay)) && Valid(State())
    {
      StepValid(State(), DelayChanged(debounceDelay));
      var d := ResolveDelay(debounceDelay);
      if mounted && d != delay {
        delay := d;
        RunEffect();
      }
    }

    /** A render with a new `value`: `useState` ignores it after the first render. */
    method SetValueProp(value: string)
      requires Valid(State())
      ensures State() == Step(State(), ValuePropChanged(value))
    {
    }

    /** Time passes; the due timeout, if any, calls `onChange` with the value it captured. */
    method Tick(dt: nat)
      requires Valid(State())
      modifies this
      ensures State() == Step(old(State()), Elapsed(dt)) && Valid(State())
    {
      StepValid(State(), Elapsed(dt));
      var t := now + dt;
      delivered := delivered + Due(timers, t);
      timers := NotDue(timers, t);
      now := t;
    }

    /** Teardown: the effect's cleanup. */
    method Unmount()
      requires Valid(State())
      modifies this
      ensures State() == Step(old(State()), Unmounted) && Valid(State())
    {
      StepValid(State(), Unmounted);
      if mounted {
        CancelTimer();
        mounted := false;
      }
    }
  }
}
