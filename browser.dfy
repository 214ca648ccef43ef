/** What the pages take from the browser and its libraries: toast notifications and `Math.random()`. */
module Browser {
  import opened Wrappers

  /**
   * The `react-hot-toast` notifications the pages raise: `toast.success`,
   * `toast.error`, and plain `toast` with a custom icon.
   */
  datatype Toast = SuccessToast(text: string) | ErrorToast(text: string) | PlainToast(text: string)

  /** What a form's submit handler leaves behind: the toast, where it navigates, the loading flag. */
  datatype Submission = Submission(toast: Toast, navigateTo: Option<string>, loading: bool)

  /**
   * `error.response?.data?.error?.message || fallback`: the API's message
   * when it is a non-empty string, otherwise the page's fixed text.
   */
  function FallbackText(apiMessage: Option<string>, fallback: string): (r: string)
    ensures fallback != "" ==> r != ""
    ensures apiMessage.Some? && apiMessage.value != "" ==> r == apiMessage.value
    ensures apiMessage.None? || apiMessage.value == "" ==> r == fallback
  {
    if apiMessage.Some? && apiMessage.value != "" then apiMessage.value else fallback
  }

  /** A value `Math.random()` can return. */
  type Draw = r: real | 0.0 <= r < 1.0
}
