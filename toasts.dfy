/**
  Transient notifications (`toast.info`, `toast.success`, `toast.error`,
  `toast.warning`). Each component keeps the notifications it raised as an
  appended log.
*/
module Toasts {
  datatype Severity = Info | Success | Error | Warning

  datatype Toast = Toast(severity: Severity, message: string)

  /** `error?.response?.data?.message || fallback`: the server's message when it is non-empty. */
  function ServerMessageOr(serverMessage: string, fallback: string): (r: string)
    ensures serverMessage != "" ==> r == serverMessage
    ensures serverMessage == "" ==> r == fallback
  {
    if serverMessage != "" then serverMessage else fallback
  }
}
