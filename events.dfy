/** What passes between the framework and an event handler: the submitted form on the way in,
    and on the way out what the handler hands back instead of performing it (a transient notice,
    a page change, a chained handler to run next, or a bare state flush). */
module Events {
  datatype Event =
    | Toast(text: string, durationMs: nat)
    | Redirect(path: string)
    | Chain(handler: string)
    | Flush

  /** `form_data.get(key, "")` on the submitted form. */
  function FormField(form: map<string, string>, key: string): string {
    if key in form then form[key] else ""
  }
}
