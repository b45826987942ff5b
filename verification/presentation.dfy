/**
 * The stateless choices of SwiftUIMemoryLeakWorkaround.swift: which UIKit
 * modal style a presentation type asks for, and which of the two
 * presentation paths the view modifier takes.
 */
module Presentation {

  /** `SwiftUIMemoryLeakWorkaround.PresentationType`. */
  datatype PresentationType = Sheet | FullScreenCover

  /**
   * The values of UIKit's `modalPresentationStyle` the model needs.
   * `Automatic` is what a freshly created view controller carries.
   */
  datatype ModalStyle = Automatic | FormSheet | FullScreen

  /** The style the coordinator gives a surface it is about to present. */
  function StyleFor(t: PresentationType): (s: ModalStyle)
    ensures s != Automatic
    ensures s == FormSheet <==> t == Sheet
    ensures s == FullScreen <==> t == FullScreenCover
  {
    match t
    case Sheet => FormSheet
    case FullScreenCover => FullScreen
  }

  /**
   * What the modifier's `body` turns into: forward every change of the bound
   * item to the coordinator, or hand the binding to SwiftUI's own
   * `.sheet`/`.fullScreenCover` of the given type.
   */
  datatype Route = Forward | Native(kind: PresentationType)

  /**
   * The modifier's gate. The OS version check and the environment lookup
   * are the two booleans.
   */
  function Body(kind: PresentationType, iOS17OrLater: bool, hasCoordinator: bool): (r: Route)
    ensures r == Forward <==> iOS17OrLater && hasCoordinator
    ensures r.Native? ==> r.kind == kind
  {
    if iOS17OrLater && hasCoordinator then Forward else Native(kind)
  }
}
