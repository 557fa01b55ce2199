/** Small value types shared by the whole model. */
module Wrappers {

  /** A value that may be missing: JavaScript's `false`/`undefined` results. */
  datatype Option<+T> = None | Some(value: T)

  /**
   * What a command handler hands back to its caller. The dispatcher tells
   * `false` apart from everything else: it ends the player's session.
   */
  datatype JsValue = JsFalse | JsTrue | JsUndefined
}
