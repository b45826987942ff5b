/**
 * One coordinator over a sequence of inputs: changes of bound items
 * delivered by modifiers (`present` calls) and disappearances of surfaces
 * (hook runs). A `Disappear` event idles the coordinator whichever surface
 * it names, so the runs cover more than the hooks of its own surfaces; the
 * lemmas over all runs hold for that larger set too. The lemmas are the
 * properties the coordinator keeps over any such sequence.
 */
module Traces {
  import opened Wrappers
  import opened Coordination

  /**
   * `Change`: the modifier with request id `id` saw its item change; `created`
   * is the hosting controller UIKit would hand back if one is built.
   * `Disappear`: the host reports that `surface` left the screen.
   */
  datatype Event =
    | Change(id: Uuid, hasItem: bool, created: Surface)
    | Disappear(surface: Surface)

  function Step(presenter: Surface?, slot: Slot, e: Event): Outcome {
    match e
    case Change(id, hasItem, created) => Next(presenter, slot, id, hasItem, created)
    case Disappear(surface) => Hook(surface.item, surface.onDismiss)
  }

  /** The final slot and every command issued, in order. */
  function Run(presenter: Surface?, slot: Slot, events: seq<Event>): Outcome
    decreases |events|
  {
    if events == [] then Outcome(slot, [])
    else
      var first := Step(presenter, slot, events[0]);
      var rest := Run(presenter, first.slot, events[1..]);
      Outcome(rest.slot, first.commands + rest.commands)
  }

  /** A slot that starts consistent stays consistent: never a source without a child or a child without a source. */
  lemma {:induction false} RunKeepsConsistent(presenter: Surface?, slot: Slot, events: seq<Event>)
    requires Consistent(slot)
    ensures Consistent(Run(presenter, slot, events).slot)
    decreases |events|
  {
    if events != [] {
      RunKeepsConsistent(presenter, Step(presenter, slot, events[0]).slot, events[1..]);
    }
  }

  /** A coordinator with no controller ignores every change it is sent. */
  lemma {:induction false} DetachedIsInert(slot: Slot, events: seq<Event>)
    requires forall i :: 0 <= i < |events| ==> events[i].Change?
    ensures Run(null, slot, events) == Outcome(slot, [])
    decreases |events|
  {
    if events != [] {
      DetachedIsInert(slot, events[1..]);
    }
  }

  /** Clears from requesters other than the current source change nothing, however often they are delivered. */
  lemma {:induction false} ForeignClearsChangeNothing(presenter: Surface?, slot: Slot, events: seq<Event>)
    requires forall i :: 0 <= i < |events| ==>
               events[i].Change? && !events[i].hasItem && slot.source != Some(events[i].id)
    ensures Run(presenter, slot, events) == Outcome(slot, [])
    decreases |events|
  {
    if events != [] {
      ForeignClearsChangeNothing(presenter, slot, events[1..]);
    }
  }

  /** After a value change, the slot holds that request and the surface made for it. */
  lemma {:induction false} LastValueIsHeld(presenter: Surface, slot: Slot, events: seq<Event>, id: Uuid, created: Surface)
    ensures Run(presenter, slot, events + [Change(id, true, created)]).slot == Slot(Some(id), created)
    decreases |events|
  {
    var last := [Change(id, true, created)];
    if events == [] {
      assert events + last == last;
      assert last[1..] == [];
    } else {
      LastValueIsHeld(presenter, Step(presenter, slot, events[0]).slot, events[1..], id, created);
      assert (events + last)[0] == events[0];
      assert (events + last)[1..] == events[1..] + last;
    }
  }

  function PresentCount(commands: seq<Command>): nat {
    if commands == [] then 0
    else (if commands[0].Present? then 1 else 0) + PresentCount(commands[1..])
  }

  function ValueChanges(events: seq<Event>): nat {
    if events == [] then 0
    else (if events[0].Change? && events[0].hasItem then 1 else 0) + ValueChanges(events[1..])
  }

  lemma {:induction false} PresentCountAppend(a: seq<Command>, b: seq<Command>)
    ensures PresentCount(a + b) == PresentCount(a) + PresentCount(b)
    decreases |a|
  {
    if a != [] {
      assert (a + b)[0] == a[0];
      assert (a + b)[1..] == a[1..] + b;
      PresentCountAppend(a[1..], b);
    } else {
      assert a + b == b;
    }
  }

  /** An attached coordinator presents exactly once per change to a set item, and never otherwise. */
  lemma {:induction false} OnePresentPerValue(presenter: Surface?, slot: Slot, events: seq<Event>)
    ensures PresentCount(Run(presenter, slot, events).commands) ==
            if presenter == null then 0 else ValueChanges(events)
    decreases |events|
  {
    if events != [] {
      var first := Step(presenter, slot, events[0]);
      OnePresentPerValue(presenter, first.slot, events[1..]);
      PresentCountAppend(first.commands, Run(presenter, first.slot, events[1..]).commands);
      if events[0].Change? && presenter != null && events[0].hasItem {
        var e := events[0];
        var d := DismissChild(slot.child, slot.source != Some(e.id));
        PresentCountAppend(d, [Present(presenter, e.created, true)]);
        assert PresentCount(d) == 0;
      }
    }
  }

  /** Surfaces on screen after `commands`, starting from `live`: a present adds one, a dismiss removes one. */
  function Live(live: set<Surface>, commands: seq<Command>): set<Surface>
    decreases |commands|
  {
    if commands == [] then live
    else
      var c := commands[0];
      var next := if c.Present? then live + {c.presented}
                  else if c.Dismiss? then live - {c.surface}
                  else live;
      Live(next, commands[1..])
  }

  function Held(slot: Slot): set<Surface> {
    if slot.child == null then {} else {slot.child}
  }

  lemma {:induction false} LiveAppend(live: set<Surface>, a: seq<Command>, b: seq<Command>)
    ensures Live(live, a + b) == Live(Live(live, a), b)
    decreases |a|
  {
    if a != [] {
      assert (a + b)[0] == a[0];
      assert (a + b)[1..] == a[1..] + b;
      var c := a[0];
      LiveAppend(if c.Present? then live + {c.presented} else if c.Dismiss? then live - {c.surface} else live, a[1..], b);
    } else {
      assert a + b == b;
    }
  }

  lemma LiveOne(live: set<Surface>, c: Command)
    ensures Live(live, [c]) == if c.Present? then live + {c.presented}
                               else if c.Dismiss? then live - {c.surface}
                               else live
  {
    assert [c][1..] == [];
  }

  lemma LiveDismissChild(live: set<Surface>, child: Surface?, animated: bool)
    ensures Live(live, DismissChild(child, animated)) == live - Held(Slot(None, child))
  {
    if child != null {
      LiveOne(live, Dismiss(child, animated));
    }
  }

  /**
   * While only item changes arrive, every surface this coordinator has on
   * screen is the one it holds: at most one is presented at any time.
   */
  lemma {:induction false} AtMostOneLive(presenter: Surface?, slot: Slot, live: set<Surface>, events: seq<Event>)
    requires forall i :: 0 <= i < |events| ==> events[i].Change?
    requires live <= Held(slot)
    ensures var o := Run(presenter, slot, events);
            Live(live, o.commands) <= Held(o.slot) && |Live(live, o.commands)| <= 1
    decreases |events|
  {
    var o := Run(presenter, slot, events);
    if events != [] {
      var first := Step(presenter, slot, events[0]);
      var rest := Run(presenter, first.slot, events[1..]);
      var e := events[0];
      var mid := Live(live, first.commands);
      match Decide(slot.source, presenter != null, e.id, e.hasItem) {
        case Ignore =>
          assert mid == live;
        case Clear =>
          LiveDismissChild(live, slot.child, true);
        case Replace(animatedDismiss) =>
          var d := DismissChild(slot.child, animatedDismiss);
          LiveAppend(live, d, [Present(presenter, e.created, true)]);
          LiveDismissChild(live, slot.child, animatedDismiss);
          LiveOne(Live(live, d), Present(presenter, e.created, true));
      }
      assert mid <= Held(first.slot);
      AtMostOneLive(presenter, first.slot, mid, events[1..]);
      LiveAppend(live, first.commands, rest.commands);
      assert o == Outcome(rest.slot, first.commands + rest.commands);
      assert Live(live, o.commands) == Live(mid, rest.commands);
    } else {
      assert o == Outcome(slot, []);
    }
    var after := Live(live, o.commands);
    assert after <= Held(o.slot);
    if after != {} {
      assert o.slot.child != null && after == {o.slot.child};
    }
  }

  /**
   * A value presented and then dismissed from the screen: the coordinator is
   * idle again, the binding was cleared before `onDismiss` ran once, and the
   * clear the modifier then delivers is ignored.
   */
  lemma RoundTrip(presenter: Surface, slot: Slot, id: Uuid, created: Surface)
    ensures var o := Run(presenter, slot, [Change(id, true, created), Disappear(created), Change(id, false, created)]);
      && o.slot == Idle
      && o.commands == DismissChild(slot.child, slot.source != Some(id))
                       + [Present(presenter, created, true), ClearItem(created.item)]
                       + (if created.onDismiss.Some? then [CallOnDismiss(created.onDismiss.value)] else [])
  {
    var events := [Change(id, true, created), Disappear(created), Change(id, false, created)];
    var s1 := Slot(Some(id), created);
    assert Step(presenter, slot, events[0]).slot == s1;
    assert Step(presenter, s1, events[1]).slot == Idle;
    assert Run(presenter, Idle, events[2..]) == Outcome(Idle, []);
    assert events[1..][1..] == events[2..];
  }

  /**
   * The hook idles the coordinator whichever of its surfaces disappeared.
   * When a same-source replacement dismisses `a` for `b` and `a`'s hook runs
   * afterwards, the coordinator forgets `b` while `b` is presented and not
   * dismissed.
   */
  lemma StaleHookForgetsReplacement(presenter: Surface, a: Surface, b: Surface, id: Uuid)
    requires a != b
    ensures var o := Run(presenter, Idle, [Change(id, true, a), Change(id, true, b), Disappear(a)]);
      o.slot == Idle && Live({}, o.commands) == {b}
  {
    var p0, p1 := Present(presenter, a, true), Present(presenter, b, true);
    var e0, e1, e2 := Change(id, true, a), Change(id, true, b), Disappear(a);
    var hook := Hook(a.item, a.onDismiss).commands;
    var s1, s2 := Slot(Some(id), a), Slot(Some(id), b);
    assert Run(presenter, s2, [e2]) == Outcome(Idle, hook) by {
      assert [e2][1..] == [];
    }
    assert Run(presenter, s1, [e1, e2]) == Outcome(Idle, [Dismiss(a, false), p1] + hook) by {
      assert [e1, e2][1..] == [e2];
      assert Step(presenter, s1, e1) == Outcome(s2, [Dismiss(a, false), p1]);
    }
    assert Run(presenter, Idle, [e0, e1, e2]) == Outcome(Idle, [p0] + ([Dismiss(a, false), p1] + hook)) by {
      assert [e0, e1, e2][1..] == [e1, e2];
      assert Step(presenter, Idle, e0) == Outcome(s1, [p0]);
    }
    StaleTraceOnScreen(presenter, a, b);
    assert [p0] + ([Dismiss(a, false), p1] + hook) == [p0, Dismiss(a, false), p1] + hook;
  }

  /**
   * After the stale hook, a value sent by another requester makes the
   * coordinator issue a second present while `b`, presented and never
   * dismissed, is forgotten: the host has both `b` and `c` presented and
   * not dismissed.
   */
  lemma StaleHookPresentsOverForgotten(presenter: Surface, a: Surface, b: Surface, c: Surface, id: Uuid, other: Uuid)
    requires a != b
    ensures var o := Run(presenter, Idle, [Change(id, true, a), Change(id, true, b), Disappear(a), Change(other, true, c)]);
      o.slot == Slot(Some(other), c) && Live({}, o.commands) == {b, c}
  {
    var p0, p1, p2 := Present(presenter, a, true), Present(presenter, b, true), Present(presenter, c, true);
    var e0, e1, e2, e3 := Change(id, true, a), Change(id, true, b), Disappear(a), Change(other, true, c);
    var hook := Hook(a.item, a.onDismiss).commands;
    var s1, s2, s3 := Slot(Some(id), a), Slot(Some(id), b), Slot(Some(other), c);
    assert Run(presenter, Idle, [e3]) == Outcome(s3, [p2]) by {
      assert [e3][1..] == [];
    }
    assert Run(presenter, s2, [e2, e3]) == Outcome(s3, hook + [p2]) by {
      assert [e2, e3][1..] == [e3];
    }
    assert Run(presenter, s1, [e1, e2, e3]) == Outcome(s3, [Dismiss(a, false), p1] + (hook + [p2])) by {
      assert [e1, e2, e3][1..] == [e2, e3];
      assert Step(presenter, s1, e1) == Outcome(s2, [Dismiss(a, false), p1]);
    }
    assert Run(presenter, Idle, [e0, e1, e2, e3]) == Outcome(s3, [p0] + ([Dismiss(a, false), p1] + (hook + [p2]))) by {
      assert [e0, e1, e2, e3][1..] == [e1, e2, e3];
      assert Step(presenter, Idle, e0) == Outcome(s1, [p0]);
    }
    StaleTraceThenPresent(presenter, a, b, c);
    assert [p0] + ([Dismiss(a, false), p1] + (hook + [p2])) == [p0, Dismiss(a, false), p1] + hook + [p2];
  }

  lemma StaleTraceOnScreen(presenter: Surface, a: Surface, b: Surface)
    requires a != b
    ensures var three := [Present(presenter, a, true), Dismiss(a, false), Present(presenter, b, true)];
            Live({}, three + Hook(a.item, a.onDismiss).commands) == {b}
  {
    var p0, p1 := Present(presenter, a, true), Present(presenter, b, true);
    var hook := Hook(a.item, a.onDismiss).commands;
    var three := [p0, Dismiss(a, false), p1];
    LiveOne({}, p0);
    LiveAppend({}, [p0], [Dismiss(a, false)]);
    LiveOne({a}, Dismiss(a, false));
    LiveAppend({}, [p0, Dismiss(a, false)], [p1]);
    assert [p0, Dismiss(a, false)] + [p1] == three;
    LiveOne({}, p1);
    assert Live({}, three) == {b};
    LiveAfterHook({b}, a.item, a.onDismiss);
    LiveAppend({}, three, hook);
  }

  lemma StaleTraceThenPresent(presenter: Surface, a: Surface, b: Surface, c: Surface)
    requires a != b
    ensures var three := [Present(presenter, a, true), Dismiss(a, false), Present(presenter, b, true)];
            Live({}, three + Hook(a.item, a.onDismiss).commands + [Present(presenter, c, true)]) == {b, c}
  {
    var three := [Present(presenter, a, true), Dismiss(a, false), Present(presenter, b, true)];
    var hook := Hook(a.item, a.onDismiss).commands;
    StaleTraceOnScreen(presenter, a, b);
    LiveOne({b}, Present(presenter, c, true));
    LiveAppend({}, three + hook, [Present(presenter, c, true)]);
  }

  /** The hook's commands neither present nor dismiss anything. */
  lemma LiveAfterHook(live: set<Surface>, item: Binding, onDismiss: Option<Callback>)
    ensures Live(live, Hook(item, onDismiss).commands) == live
  {
    LiveOne(live, ClearItem(item));
    if onDismiss.Some? {
      var cb := CallOnDismiss(onDismiss.value);
      LiveAppend(live, [ClearItem(item)], [cb]);
      LiveOne(live, cb);
    }
  }

  /**
   * Value X then Y from one requester, Z from another, the user dismissing
   * Z's surface, then the stale clear from the first requester. The
   * same-source swap dismisses without animation, the cross-source one with
   * it; every present is animated.
   */
  lemma Scenario(presenter: Surface, sA: Surface, sB: Surface, sC: Surface, idA: Uuid, idB: Uuid)
    requires idA != idB
    ensures var o := Run(presenter, Idle, [Change(idA, true, sA), Change(idA, true, sB), Change(idB, true, sC),
                                          Disappear(sC), Change(idA, false, sA)]);
      && o.slot == Idle
      && o.commands == [Present(presenter, sA, true), Dismiss(sA, false), Present(presenter, sB, true),
                        Dismiss(sB, true), Present(presenter, sC, true)]
                       + Hook(sC.item, sC.onDismiss).commands
  {
    var e0, e1, e2, e3, e4 := Change(idA, true, sA), Change(idA, true, sB), Change(idB, true, sC), Disappear(sC), Change(idA, false, sA);
    var hook := Hook(sC.item, sC.onDismiss).commands;
    var pA, pB, pC := Present(presenter, sA, true), Present(presenter, sB, true), Present(presenter, sC, true);
    var s1, s2, s3 := Slot(Some(idA), sA), Slot(Some(idA), sB), Slot(Some(idB), sC);
    assert Run(presenter, Idle, [e4]) == Outcome(Idle, []) by {
      assert [e4][1..] == [];
    }
    assert Run(presenter, s3, [e3, e4]) == Outcome(Idle, hook) by {
      assert [e3, e4][1..] == [e4];
    }
    assert Run(presenter, s2, [e2, e3, e4]) == Outcome(Idle, [Dismiss(sB, true), pC] + hook) by {
      assert [e2, e3, e4][1..] == [e3, e4];
      assert Step(presenter, s2, e2) == Outcome(s3, [Dismiss(sB, true), pC]);
    }
    assert Run(presenter, s1, [e1, e2, e3, e4]) == Outcome(Idle, [Dismiss(sA, false), pB] + ([Dismiss(sB, true), pC] + hook)) by {
      assert [e1, e2, e3, e4][1..] == [e2, e3, e4];
      assert Step(presenter, s1, e1) == Outcome(s2, [Dismiss(sA, false), pB]);
    }
    assert Run(presenter, Idle, [e0, e1, e2, e3, e4]) == Outcome(Idle, [pA] + ([Dismiss(sA, false), pB] + ([Dismiss(sB, true), pC] + hook))) by {
      assert [e0, e1, e2, e3, e4][1..] == [e1, e2, e3, e4];
      assert Step(presenter, Idle, e0) == Outcome(s1, [pA]);
    }
    assert [pA] + ([Dismiss(sA, false), pB] + ([Dismiss(sB, true), pC] + hook))
        == [pA, Dismiss(sA, false), pB, Dismiss(sB, true), pC] + hook;
  }
}
