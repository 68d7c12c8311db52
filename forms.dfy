/** What the three record forms (users, resources, security areas) share: the create/edit mode
  * they are opened in and the per-field error messages they display. */
module Forms {

  /** `mode: 'create' | 'edit'`. */
  datatype Mode = Create | Edit

  /** The `errors` record of a form: field name to message. An empty message hides the error.
    * Each form names its fields with an enumeration `K`. */
  type Errors<K> = map<K, string>

  /** `errors[field]` is truthy, so the field's error is displayed. */
  predicate Shows<K>(errors: Errors<K>, key: K) {
    key in errors && errors[key] != ""
  }

  /** The error reset in `handleInputChange`: a displayed error of the edited field is blanked;
    * otherwise the errors are left alone. */
  function ClearError<K>(errors: Errors<K>, key: K): (r: Errors<K>)
    ensures !Shows(r, key)
    ensures r.Keys == errors.Keys
    ensures forall k :: k in errors && k != key ==> r[k] == errors[k]
  {
    if Shows(errors, key) then errors[key := ""] else errors
  }
}
