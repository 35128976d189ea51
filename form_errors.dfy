/** The `errors` state of the wizard forms: a `Partial<...>` object from
    field names to messages. A key mapped to None is a property that a
    handler has set to `undefined`; it is still one of `Object.keys`. */
module FormErrors {
  import opened Wrappers

  type Errors = map<string, Option<string>>

  /** `errors[name]` is truthy: a non-empty message. */
  predicate HasError(errors: Errors, name: string)
  {
    name in errors && errors[name].Some? && errors[name].value != ""
  }

  /** `if (errors[name]) setErrors(prev => ({ ...prev, [name]: undefined }))`. */
  function ClearOnChange(errors: Errors, name: string): (r: Errors)
    ensures !HasError(r, name)
    ensures forall k :: k != name ==> (k in r <==> k in errors) && (k in r ==> r[k] == errors[k])
    ensures !HasError(errors, name) ==> r == errors
  {
    if HasError(errors, name) then errors[name := None] else errors
  }

  /** `setErrors(prev => ({ ...prev, [name]: message }))`. */
  function SetError(errors: Errors, name: string, message: string): (r: Errors)
    ensures name in r && r[name] == Some(message)
    ensures forall k :: k != name ==> (k in r <==> k in errors) && (k in r ==> r[k] == errors[k])
  {
    errors[name := Some(message)]
  }
}
