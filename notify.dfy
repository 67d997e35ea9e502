/** The transient notifications ("toasts") the views raise, recorded as outputs. */
module Notify {

  /** One notification: its kind and its message text. */
  datatype Toast =
    | Success(message: string)
    | Info(message: string)
    | Warning(message: string)
    | Error(message: string)
}
