# SwiftUIMemoryLeakWorkaround, modelled in Dafny

On iOS 17, SwiftUI's item-bound `.sheet` and `.fullScreenCover` leak the
presented item. SwiftUIMemoryLeakWorkaround avoids this. Its view modifier
watches the bound item and forwards every change to a presentation
coordinator. The coordinator drives UIKit directly. It dismisses the surface
it holds and presents a new `UIHostingController` with animation flags that
depend on the request. A new child coordinator goes into the new content's
environment. A hook on the presented view writes `nil` back into the binding
when the surface leaves the screen, clears the coordinator and runs
`onDismiss`.

The model has four modules:

- `Presentation` (`presentation.dfy`) holds the two stateless choices. One maps
  the presentation type to the UIKit modal style. The other is the modifier's
  `body` gate, which either forwards to the coordinator or falls back to
  SwiftUI's own modifier of the same type.
- `Coordination` (`coordinator.dfy`) holds the coordinator as a class with the
  source's fields, `controller`, `source` and `childController`. Its
  `Present` method updates them in place. UIKit is an abstract host: a `Host`
  object whose `log` records, in order, every `dismiss` and `present` the
  coordinator issues, every write of `nil` into a binding and every
  `onDismiss` call. A `Surface` stands for a hosting controller. It has a
  `modalPresentationStyle`, the child coordinator in its content's
  environment and the `onDisappear` closure, which is its `OnDisappear`
  method. The pure functions `Decide`, `Next` and `Hook` specify what one
  call does, and the methods are proved against them.
- `Traces` (`traces.dfy`) runs one coordinator over any sequence of item
  changes and disappearances. It proves the properties that span several
  calls.
- `Wrappers` (`wrappers.dfy`) is `Option`.

The hook clears its owner's fields whether or not the disappearing surface is
still the owner's child. `StaleHookForgetsReplacement` shows what follows. A
same-source swap dismisses surface `a` for `b`, then `a`'s hook runs. The
coordinator is now idle while `b` is presented and was never dismissed. When
another requester then sends a value, the coordinator issues a second present
without dismissing `b` (`StaleHookPresentsOverForgotten`). Every replacement
works this way, not only a same-source swap. A cross-source replacement
(line 143, animated) and a clear from the current source followed by a new
value also dismiss a surface whose hook (lines 159-160) later idles the
coordinator. `AtMostOneLive` therefore holds for runs made only of item
changes.

The comment at Source/SwiftUIMemoryLeakWorkaround.swift:138-139 describes a
same-source replacement as an unanimated dismissal followed by an unanimated
present. The code always presents with `animated: true` (line 180), and only
the dismissal uses `!sameSource` (line 143). The model follows the code.

## Model

| member | source | states |
|---|---|---|
| `Presentation.StyleFor` | Source/SwiftUIMemoryLeakWorkaround.swift:172-178 | a sheet gets `formSheet` and a full-screen cover gets `fullScreen`, never UIKit's default |
| `Presentation.Body` | Source/SwiftUIMemoryLeakWorkaround.swift:44-61 | changes are forwarded to the coordinator exactly when the OS is iOS 17 or later and a coordinator is in the environment; otherwise SwiftUI's native modifier of the same type is used |
| `Coordination.Decide` | Source/SwiftUIMemoryLeakWorkaround.swift:119-137 | detached or foreign clear: ignore; clear from the current source: clear; item set while attached: replace, where the old surface's dismissal is animated exactly when the request is from another source |
| `Coordination.DismissChild` | Source/SwiftUIMemoryLeakWorkaround.swift:143 | `childController?.dismiss` issues at most one command, a dismissal of the held child with the given flag, and none exactly when there is no child |
| `Coordination.Next` | Source/SwiftUIMemoryLeakWorkaround.swift:118-182 | a detached coordinator and a foreign clear change nothing and issue nothing; a clear from the current source while attached dismisses the held child with animation (if there is one) and leaves the slot idle; consistency of source and child is kept; only the held child is ever dismissed; a set item while attached ends with one animated present of the new surface from the controller and the slot holding that request and surface |
| `Coordination.Hook` | Source/SwiftUIMemoryLeakWorkaround.swift:154-164 | the hook idles the coordinator; it first clears the binding, then calls `onDismiss` once when there is one, and does nothing else |
| `Coordination.Coordinator.constructor` | Source/SwiftUIMemoryLeakWorkaround.swift:114-116 | a new coordinator holds the given controller and starts idle |
| `Coordination.Coordinator.Present` | Source/SwiftUIMemoryLeakWorkaround.swift:118-182 | the new slot and the commands added to the host log are those of `Next`; on a replacement the new surface is fresh, has the style of the type and a hook that captures this coordinator, the binding and `onDismiss`; its child coordinator is fresh, idle and attached to it; the controller never changes |
| `Coordination.Surface.OnDisappear` | Source/SwiftUIMemoryLeakWorkaround.swift:154-164 | the binding becomes nil, the owning coordinator becomes idle whichever child it held, its controller is kept, and the host log grows by exactly the commands of `Hook` |
| `Traces.RunKeepsConsistent` | Source/SwiftUIMemoryLeakWorkaround.swift:129-170 | over any sequence of changes and disappearances, the coordinator holds a source exactly when it holds a child |
| `Traces.DetachedIsInert` | Source/SwiftUIMemoryLeakWorkaround.swift:119 | a coordinator with no controller ignores every change: no command is issued and its slot is unchanged |
| `Traces.ForeignClearsChangeNothing` | Source/SwiftUIMemoryLeakWorkaround.swift:124-127 | any number of clears from requesters other than the source, including the same one delivered again, leave slot and log unchanged |
| `Traces.LastValueIsHeld` | Source/SwiftUIMemoryLeakWorkaround.swift:169-170 | after any history, a set item presented while attached leaves the coordinator holding that request id and the surface made for it |
| `Traces.OnePresentPerValue` | Source/SwiftUIMemoryLeakWorkaround.swift:137-180 | an attached coordinator issues exactly one present per change to a set item and none for anything else; a detached coordinator issues none |
| `Traces.AtMostOneLive` | Source/SwiftUIMemoryLeakWorkaround.swift:129-180 | while only item changes arrive, every surface presented and not yet dismissed is the held child, so at most one is on screen |
| `Traces.RoundTrip` | Source/SwiftUIMemoryLeakWorkaround.swift:154-164 | presenting a value, then the surface disappearing, then the stale clear: the coordinator is idle, the log is the dismissal of any old child, one present, one clear of the binding, then at most one `onDismiss` |
| `Traces.StaleHookForgetsReplacement` | Source/SwiftUIMemoryLeakWorkaround.swift:159-160 | after a same-source swap from `a` to `b`, the hook of `a` idles the coordinator while `b` is presented and not dismissed |
| `Traces.StaleHookPresentsOverForgotten` | Source/SwiftUIMemoryLeakWorkaround.swift:143 | after that stale hook, a value from another requester makes the coordinator issue a second present while `b` is still presented and was never dismissed |
| `Traces.Scenario` | Source/SwiftUIMemoryLeakWorkaround.swift:118-182 | X then Y from one requester, Z from another, Z dismissed by the user, then a stale clear: the exact command sequence, with an unanimated swap dismissal, an animated cross-source dismissal, every present animated, and the coordinator left idle |

## Left out

- The UIKit and SwiftUI machinery is not modelled: `UIHostingController`, real presentation and dismissal, `.onChange` and `.onDisappear` registration. The host is the command log of `Host`. A disappearance is an explicit call of `Surface.OnDisappear`, or a `Disappear` event in `Traces`.
- Each change that `.onChange(of:)` reports (lines 47-49) is one call of `Coordinator.Present`, or one `Change` event, made with the modifier's own type, id, binding and `onDismiss`.
- Weak references, ARC and the absence of leaks are not modelled, because object lifetime cannot be stated in Dafny. `controller`, `childController` and the hook's `self` are plain references. The model never stores the presented item. A `Surface` keeps the binding, the callback and the child coordinator, but not the built view.
- Surface.OnDisappear: when the owning coordinator has already been released, the closure's `self?` writes do nothing. The model always has a live owner.
- `UUID` generation (line 34) is not modelled. `Uuid` is a value compared only for equality.
- The environment key and its accessors (lines 14-23) are not modelled. Whether a coordinator is present is the `hasCoordinator` argument of `Body`. `#available(iOS 17.0, *)` is the `iOS17OrLater` argument.
- `leak_workaround_sheet` and `leak_workaround_fullScreenCover` (lines 64-72) are not modelled separately. They only fix the presentation type, which `Body` and `Present` take as a parameter.
- The host log does not model UIKit refusing a `present` from a controller that is already presenting. In the log, a present issued while an earlier surface was never dismissed counts as a second presented surface. In UIKit the new surface would not be shown.
- The content builder `content(truth)` is not modelled. The model does not build views.
- Re-entrant `present` calls are not modelled. Every call completes before the next one, as the library assumes.
- Example/Example/ContentView.swift, Example/Example/App.swift and Package.swift are not part of this model. They are a demo app and the build configuration.
