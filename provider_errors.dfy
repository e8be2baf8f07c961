/** How the API routes turn a thrown provider error into a user-facing message. */
module ProviderErrors {
  import opened Wrappers

  /** One entry of a provider error's `errors` array. */
  datatype ErrorDetail = ErrorDetail(detail: Option<string>)

  /**
   * `error.errors[0]?.detail || fallback`, where `errors` is `None` when the thrown value has
   * no `errors` array.
   */
  function ErrorMessage(errors: Option<seq<ErrorDetail>>, fallback: string): (r: string)
    ensures r == fallback || (errors.Some? && |errors.value| > 0 && errors.value[0].detail == Some(r))
    ensures errors.Some? && |errors.value| > 0 && errors.value[0].detail.Some? && errors.value[0].detail.value != ""
            ==> r == errors.value[0].detail.value
    ensures r == "" ==> fallback == ""
  {
    if errors.Some? && |errors.value| > 0 && errors.value[0].detail.Some? && errors.value[0].detail.value != ""
    then errors.value[0].detail.value
    else fallback
  }
}
