/**
 * Shapes shared by the form components: the `{key, value}` option of a
 * choice widget and react-hook-form's per-field error entry, with the
 * error gate every component applies to it.
 */
module FormTypes {
  import opened Wrappers

  /** One option of a choice widget: `key` is the label shown, `value` the stored value. */
  datatype SelectOption = SelectOption(key: string, value: string)

  /** A field's validation error; its message may be absent. */
  datatype FieldError = FieldError(message: Option<string>)

  /** The form's errors, keyed by field name; a missing key means no error. */
  type FieldErrors = map<string, FieldError>

  /** No two options store the same value. */
  predicate DistinctValues(options: seq<SelectOption>) {
    forall i, j :: 0 <= i < j < |options| ==> options[i].value != options[j].value
  }

  /**
   * The text of the error paragraph a component renders under its options,
   * or None when it renders none. An entry whose message is absent still
   * renders the paragraph, with no text in it.
   */
  function ErrorText(errors: FieldErrors, name: string): (r: Option<string>)
    ensures r.Some? <==> name in errors
    ensures name in errors && errors[name].message.Some? ==> r == errors[name].message
    ensures name in errors && errors[name].message.None? ==> r == Some("")
  {
    if name in errors then Some(errors[name].message.GetOr("")) else None
  }
}
