/** The nullable slots of the editor (`currentPath`, `startPos`, `selectedNode`, a mode that may be
    `null`) are modelled as an Option. */
module Wrappers {

  datatype Option<+T> = None | Some(value: T)

}
