/**
 * The parameter form: whether it is invalid, what each field shows, which
 * edits reach the owner and what a submission passes on.
 */
module PipelineForm {
  import opened Wrappers
  import opened Dicts
  import opened Forms

  /** A field's validator applied to a value, `undefined` when it has none. */
  function FieldError(js: JsNumbers, field: FormField, value: Value): Option<string> {
    if field.validator.None? then None else Validate(js, field.validator.value, value)
  }

  /** The `invalid` reduce from accumulator `invalid` on. */
  function InvalidFrom(js: JsNumbers, fields: seq<FormField>, values: Dict<string>, invalid: bool): bool {
    if fields == [] then invalid
    else
      var next :=
        if invalid then invalid
        else if fields[0].validator.Some? then IsError(FieldError(js, fields[0], Get(values, fields[0].name)))
        else invalid;
      InvalidFrom(js, fields[1..], values, next)
  }

  /** `invalid`: true exactly when some field is rejected. */
  function Invalid(js: JsNumbers, fields: seq<FormField>, values: Dict<string>): (r: bool)
    ensures r <==> exists i :: 0 <= i < |fields| && Rejected(js, fields[i], values)
  {
    InvalidIff(js, fields, values);
    InvalidFrom(js, fields, values, false)
  }

  /** A field is rejected when its validator reports an error for its current value. */
  predicate Rejected(js: JsNumbers, field: FormField, values: Dict<string>) {
    field.validator.Some? && IsError(FieldError(js, field, Get(values, field.name)))
  }

  lemma {:induction false} InvalidFromTrue(js: JsNumbers, fields: seq<FormField>, values: Dict<string>)
    ensures InvalidFrom(js, fields, values, true)
  {
    if fields != [] {
      InvalidFromTrue(js, fields[1..], values);
    }
  }

  /** The reduce started from `false` ends true exactly when some field is rejected. */
  lemma {:induction false} InvalidIff(js: JsNumbers, fields: seq<FormField>, values: Dict<string>)
    ensures InvalidFrom(js, fields, values, false) <==> exists i :: 0 <= i < |fields| && Rejected(js, fields[i], values)
  {
    if fields != [] {
      InvalidIff(js, fields[1..], values);
      if Rejected(js, fields[0], values) {
        InvalidFromTrue(js, fields[1..], values);
      } else {
        assert (exists i :: 0 <= i < |fields| && Rejected(js, fields[i], values)) <==>
               (exists i :: 0 <= i < |fields[1..]| && Rejected(js, fields[1..][i], values)) by {
          if exists i :: 0 <= i < |fields| && Rejected(js, fields[i], values) {
            var i :| 0 <= i < |fields| && Rejected(js, fields[i], values);
            assert fields[1..][i - 1] == fields[i];
          }
          if exists i :: 0 <= i < |fields[1..]| && Rejected(js, fields[1..][i], values) {
            var i :| 0 <= i < |fields[1..]| && Rejected(js, fields[1..][i], values);
            assert fields[i + 1] == fields[1..][i];
          }
        }
      }
    }
  }

  /** The submit button is enabled when the form is neither invalid nor disabled (`disabled` is optional). */
  function SubmitEnabled(js: JsNumbers, fields: seq<FormField>, values: Dict<string>, disabled: Option<bool>): (enabled: bool)
    ensures enabled <==>
              (forall i :: 0 <= i < |fields| ==> !Rejected(js, fields[i], values)) && disabled != Some(true)
  {
    InvalidIff(js, fields, values);
    !(Invalid(js, fields, values) || disabled == Some(true))
  }

  /** A click on submit: the current values, unchanged, when the button is enabled. */
  function Submit(js: JsNumbers, fields: seq<FormField>, values: Dict<string>, disabled: Option<bool>): (r: Option<Dict<string>>)
    ensures r.Some? <==> SubmitEnabled(js, fields, values, disabled)
    ensures r.Some? ==> r.value == values
  {
    if SubmitEnabled(js, fields, values, disabled) then Some(values) else None
  }

  /** The text a field shows: `''` for an absent value, else the value. */
  function DisplayedValue(values: Dict<string>, name: string): (shown: string)
    ensures Get(values, name).None? ==> shown == ""
    ensures Get(values, name).Some? ==> shown == Get(values, name).value
  {
    match Get(values, name)
    case None => ""
    case Some(v) => v
  }

  /**
   * An edit of `field` to `value`: forwarded to the owner as `(name, value)`
   * when the field has no validator or its validator reports no error.
   */
  function Forwarded(js: JsNumbers, field: FormField, value: string): (r: Option<(string, string)>)
    ensures r.Some? <==> field.validator.None? || !IsError(Validate(js, field.validator.value, Some(value)))
    ensures r.Some? ==> r.value == (field.name, value)
  {
    if field.validator.None? then Some((field.name, value))
    else if !IsError(Validate(js, field.validator.value, Some(value))) then Some((field.name, value))
    else None
  }

  /** A required field never forwards a blank edit. */
  lemma BlankNotForwarded(js: JsNumbers, field: FormField, value: string)
    requires field.validator.Some? && |field.validator.value| > 0 && field.validator.value[0] == Required
    requires Blank(value)
    ensures Forwarded(js, field, value).None?
  {
    assert field.validator.value == [Required] + field.validator.value[1..];
    RequiredComesFirst(js, field.validator.value[1..], Some(value));
  }
}
