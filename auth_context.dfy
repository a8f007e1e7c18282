/**
 * What the forms see of the authentication context: the outcome of a `login` or `register`
 * call. The calls themselves (HTTP and session storage) are not part of this model.
 */
module AuthContext {

  /** `{ success: true }`, `{ success: false, message }`, or an exception thrown by the call. */
  datatype AuthResult = Succeeded | Failed(message: string) | Threw

  const UnexpectedError := "An unexpected error occurred"
  const PasswordsDiffer := "Passwords do not match"
}
