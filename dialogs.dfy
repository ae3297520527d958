/** The title and message an `AlertDialog` shows; the authentication forms
    fill it after a request settles. */
module Dialogs {
  const SuccessTitle := "Success!"
  const ErrorTitle := "Error!"

  datatype Dialog = Dialog(title: string, message: string)

  /** The `{ title: '', message: '' }` a form starts with. */
  const NoDialog := Dialog("", "")
}
