/**
 * The presentation coordinator `SwiftUIMemoryLeakWorkaround` and the part of
 * UIKit it drives.
 *
 * UIKit is an abstract host: every call the coordinator makes into it
 * (`dismiss`, `present`) and every closure it runs on its callers' behalf
 * (writing the binding, `onDismiss`) is appended, in order, to a log held by
 * a `Host` object. A `Surface` stands for a `UIHostingController`; the only
 * thing the model keeps of the SwiftUI view inside it is what that view
 * carries: the child coordinator put into its environment and the
 * disappearance hook attached to it.
 */
module Coordination {
  import opened Wrappers
  import opened Presentation

  /** A request id (`UUID`): only equality matters. */
  datatype Uuid = Uuid(bits: nat)

  /** An `onDismiss` closure, known by a tag so the log can say which one ran. */
  datatype Callback = Callback(tag: nat)

  /** The presented item: any class instance (`AnyObject`). */
  class Item {
    constructor () {}
  }

  /** A `Binding<Item?>`: a cell owned by the caller's view state. */
  class Binding {
    var wrappedValue: Item?

    constructor (value: Item?)
      ensures wrappedValue == value
    {
      wrappedValue := value;
    }
  }

  /** What the coordinator makes happen outside itself, in order. */
  datatype Command =
    | Dismiss(surface: Surface, animated: bool)
    | Present(presenter: Surface, presented: Surface, animated: bool)
    | ClearItem(binding: Binding)
    | CallOnDismiss(callback: Callback)

  /** The abstract UIKit host: the record of every command it received. */
  class Host {
    var log: seq<Command>

    constructor ()
      ensures log == []
    {
      log := [];
    }
  }

  /**
   * The state a coordinator keeps about its one presentation slot: the id of
   * the request it is honouring and the surface it presented.
   */
  datatype Slot = Slot(source: Option<Uuid>, child: Surface?)

  const Idle := Slot(None, null)

  /** Either both fields are set or neither is. */
  predicate Consistent(s: Slot) {
    s.source.None? <==> s.child == null
  }

  /** The three things a `present` call can do. */
  datatype Transition = Ignore | Clear | Replace(animatedDismiss: bool)

  /**
   * The choice `present` makes from whether the coordinator is attached to a
   * host controller, whether the request comes from the stored source and
   * whether the bound item is set.
   */
  function Decide(source: Option<Uuid>, attached: bool, id: Uuid, hasItem: bool): (t: Transition)
    ensures t == Ignore <==> !attached || (source != Some(id) && !hasItem)
    ensures t == Clear <==> attached && source == Some(id) && !hasItem
    ensures t.Replace? <==> attached && hasItem
    ensures t.Replace? ==> (t.animatedDismiss <==> source != Some(id))
  {
    if !attached then Ignore
    else if hasItem then Replace(source != Some(id))
    else if source == Some(id) then Clear
    else Ignore
  }

  /** `childController?.dismiss(animated:)`: a command only when there is a child. */
  function DismissChild(child: Surface?, animated: bool): (cmds: seq<Command>)
    ensures |cmds| <= 1
    ensures child == null <==> cmds == []
    ensures forall c :: c in cmds ==> c == Dismiss(child, animated)
  {
    if child == null then [] else [Dismiss(child, animated)]
  }

  /** The new slot and the commands issued, in order. */
  datatype Outcome = Outcome(slot: Slot, commands: seq<Command>)

  /**
   * What one `present` call does to the slot and the host, given the
   * controller the coordinator presents from and the hosting controller that
   * would be created for the new content (used only when one is created).
   */
  function Next(presenter: Surface?, slot: Slot, id: Uuid, hasItem: bool, created: Surface?): (o: Outcome)
    requires presenter != null && hasItem ==> created != null
    ensures presenter == null ==> o == Outcome(slot, [])
    ensures !hasItem && slot.source != Some(id) ==> o == Outcome(slot, [])
    ensures presenter != null && !hasItem && slot.source == Some(id) ==>
              o == Outcome(Idle, DismissChild(slot.child, true))
    ensures Consistent(slot) ==> Consistent(o.slot)
    ensures o.slot == slot || o.slot == Idle || o.slot == Slot(Some(id), created)
    ensures forall c :: c in o.commands && c.Dismiss? ==> c.surface == slot.child
    ensures forall c :: c in o.commands && c.Present? ==>
              hasItem && c.presenter == presenter && c.presented == created && c.animated
    ensures presenter != null && hasItem ==>
              o.slot == Slot(Some(id), created) && |o.commands| >= 1 &&
              o.commands[|o.commands| - 1] == Present(presenter, created, true)
  {
    match Decide(slot.source, presenter != null, id, hasItem)
    case Ignore => Outcome(slot, [])
    case Clear => Outcome(Idle, DismissChild(slot.child, true))
    case Replace(animatedDismiss) =>
      Outcome(Slot(Some(id), created),
              DismissChild(slot.child, animatedDismiss) + [Present(presenter, created, true)])
  }

  /**
   * What the disappearance hook does: it idles the coordinator whatever the
   * slot held, after writing nil into the binding and before running
   * `onDismiss`.
   */
  function Hook(item: Binding, onDismiss: Option<Callback>): (o: Outcome)
    ensures o.slot == Idle
    ensures |o.commands| >= 1 && o.commands[0] == ClearItem(item)
    ensures forall c :: c in o.commands[1..] ==> c.CallOnDismiss? && onDismiss == Some(c.callback)
    ensures |o.commands| == if onDismiss.Some? then 2 else 1
  {
    match onDismiss
    case None => Outcome(Idle, [ClearItem(item)])
    case Some(callback) => Outcome(Idle, [ClearItem(item), CallOnDismiss(callback)])
  }

  /**
   * A `UIHostingController` the coordinator created, with what its root view
   * carries: the coordinator for the next nesting level, and the
   * `onDisappear` closure with what it captured (the presenting coordinator,
   * the binding and the `onDismiss` callback). The item itself is not kept.
   */
  class Surface {
    var modalPresentationStyle: ModalStyle
    const environment: Coordinator
    const owner: Coordinator
    const item: Binding
    const onDismiss: Option<Callback>

    constructor (environment: Coordinator, owner: Coordinator, item: Binding, onDismiss: Option<Callback>)
      ensures modalPresentationStyle == Automatic
      ensures this.environment == environment && this.owner == owner
      ensures this.item == item && this.onDismiss == onDismiss
    {
      modalPresentationStyle := Automatic;
      this.environment := environment;
      this.owner := owner;
      this.item := item;
      this.onDismiss := onDismiss;
    }

    /**
     * The `onDisappear` closure, run by the host when this surface leaves
     * the screen. It clears the owner's fields without asking whether this
     * surface is still the owner's child.
     */
    method OnDisappear(host: Host)
      modifies owner, item, host
      ensures item.wrappedValue == null
      ensures owner.Valid() && owner.Current() == Hook(item, onDismiss).slot
      ensures owner.controller == old(owner.controller)
      ensures host.log == old(host.log) + Hook(item, onDismiss).commands
    {
      item.wrappedValue := null;
      host.log := host.log + [ClearItem(item)];
      owner.childController := null;
      owner.source := None;
      if onDismiss.Some? {
        host.log := host.log + [CallOnDismiss(onDismiss.value)];
      }
    }
  }

  /** `SwiftUIMemoryLeakWorkaround`: one per nesting level of presentation. */
  class Coordinator {
    /** The controller to present from (weak in the source). */
    var controller: Surface?
    /** The id of the request being honoured. */
    var source: Option<Uuid>
    /** The controller presented (weak in the source). */
    var childController: Surface?

    function Current(): Slot
      reads this
    {
      Slot(source, childController)
    }

    /** At most one child, tracked together with its request id, and presented by this coordinator. */
    ghost predicate Valid()
      reads this
    {
      Consistent(Current()) && (childController != null ==> childController.owner == this)
    }

    constructor (viewController: Surface?)
      ensures Valid() && Current() == Idle && controller == viewController
    {
      controller := viewController;
      source := None;
      childController := null;
    }

    /**
     * A change of the bound item of the modifier with request id `id`.
     * When a new surface is presented it is fresh, carries a fresh child
     * coordinator attached to it and idle, has the style of `kind`, and its
     * hook captures this coordinator, `item` and `onDismiss`.
     */
    method Present(kind: PresentationType, id: Uuid, item: Binding, onDismiss: Option<Callback>, host: Host)
      requires Valid()
      modifies this, host
      ensures Valid() && controller == old(controller)
      ensures Decide(old(source), old(controller) != null, id, item.wrappedValue != null).Replace? ==>
        && childController != null && fresh(childController)
        && childController.modalPresentationStyle == StyleFor(kind)
        && childController.item == item && childController.onDismiss == onDismiss
        && fresh(childController.environment)
        && childController.environment.controller == childController
        && childController.environment.Current() == Idle
        && childController.environment.Valid()
      ensures var o := Next(old(controller), old(Current()), id, item.wrappedValue != null, childController);
        Current() == o.slot && host.log == old(host.log) + o.commands
    {
      if controller == null {
        return;
      }
      var sameSource := source == Some(id);
      var truth := item.wrappedValue;
      if truth == null {
        if sameSource {
          host.log := host.log + DismissChild(childController, true);
          childController := null;
          source := None;
        }
      } else {
        host.log := host.log + DismissChild(childController, !sameSource);
        childController := null;
        var child := new Coordinator(null);
        var hosting := new Surface(child, this, item, onDismiss);
        child.controller := hosting;
        source := Some(id);
        childController := hosting;
        hosting.modalPresentationStyle := StyleFor(kind);
        host.log := host.log + [Command.Present(controller, hosting, true)];
      }
    }
  }
}
