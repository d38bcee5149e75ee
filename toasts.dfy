/** The notifications the components raise through Chakra UI's `useToast`. */
module Toasts {

  /** A toast's `status`: 'success', 'warning' or 'error'. */
  datatype ToastKind = SuccessKind | WarningKind | ErrorKind

  /** One raised toast; `duration` is in milliseconds. Every toast of the model is closable. */
  datatype Toast = Toast(title: string, description: string, kind: ToastKind, duration: nat)
}
