/**
 * The JOptionPane answer codes the dialogs of the front end compare against.
 * Every dialog of the source becomes an integer input of the model, and these
 * are the values the Swing library gives those answers.
 */
module Swing {
  const OK_OPTION: int := 0
  const CANCEL_OPTION: int := 2
  /** The dialog was closed with escape or the window button. */
  const CLOSED_OPTION: int := -1

  /** MouseEvent.BUTTON3_MASK: the right mouse button. */
  const BUTTON3_MASK: bv32 := 4
}
