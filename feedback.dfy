/** The two feedback channels of the pages: the snackbar state and the modal alerts. */
module Feedback {

  datatype Severity = Success | Error

  /** The `snack` state of a listing page: whether it shows, its text and its severity. */
  datatype Snack = Snack(open: bool, msg: string, severity: Severity)

  /** The state every listing page starts with. */
  const HiddenSnack: Snack := Snack(false, "", Success)

  function SuccessSnack(msg: string): Snack { Snack(true, msg, Success) }
  function ErrorSnack(msg: string): Snack { Snack(true, msg, Error) }

  /** One modal alert: a success or an error alert with its text. */
  datatype Alert = AlertSuccess(text: string) | AlertError(text: string)
}
