/**
 * Form validation: a base validator tells whether a value is acceptable, a
 * validator turns that into an error message, validators compose into the
 * first error, and server-side parameter descriptions become form fields.
 */
module Forms {
  import opened Wrappers
  import opened Dicts

  /** A form value: a string, or `undefined`. */
  type Value = Option<string>
  type BaseValidator = Value -> bool
  /** `undefined` for a valid value, otherwise the error message. */
  type Validator = Value -> Option<string>

  /**
   * The host's number parsing, which this model does not interpret:
   * `isFinite` of a string, and whether `parseInt` and `parseFloat` of it
   * differ by less than `Number.EPSILON`.
   */
  datatype JsNumbers = JsNumbers(isFinite: string -> bool, parsesAsInteger: string -> bool)

  /** JavaScript truthiness of a validator's result: a non-empty message. */
  predicate IsError(e: Option<string>) {
    e.Some? && e.value != ""
  }

  /** `a || b` */
  function Or(a: Option<string>, b: Option<string>): Option<string> {
    if IsError(a) then a else b
  }

  function MakeValidator(p: BaseValidator, msg: string): (v: Validator)
    ensures forall x :: p(x) ==> v(x) == None
    ensures forall x :: !p(x) ==> v(x) == Some(msg)
  {
    x => if p(x) then None else Some(msg)
  }

  /** The `reduce` of `composeValidators` from the accumulator `acc` on. */
  function Reduce(validators: seq<Validator>, x: Value, acc: Option<string>): Option<string> {
    if validators == [] then acc else Reduce(validators[1..], x, Or(acc, validators[0](x)))
  }

  /**
   * `composeValidators`: the first error in list order; a value every
   * validator accepts is accepted, also by the empty composition.
   */
  function ComposeValidators(validators: seq<Validator>): (v: Validator)
    ensures forall x :: (forall i :: 0 <= i < |validators| ==> validators[i](x) == None) ==> v(x) == None
  {
    forall x ensures (forall i :: 0 <= i < |validators| ==> validators[i](x) == None) ==> Reduce(validators, x, None) == None {
      ComposeFirstError(validators, x, None);
    }
    x => Reduce(validators, x, None)
  }

  /** Once the accumulator holds an error, the rest of the validators do not change it. */
  lemma {:induction false} ReduceKeepsError(validators: seq<Validator>, x: Value, acc: Option<string>)
    requires IsError(acc)
    ensures Reduce(validators, x, acc) == acc
  {
    if validators != [] {
      ReduceKeepsError(validators[1..], x, acc);
    }
  }

  /**
   * The composed validator reports the first error in list order; when no
   * validator reports one it returns the last validator's (non-error) result,
   * and `undefined` for an empty list.
   */
  lemma {:induction false} ComposeFirstError(validators: seq<Validator>, x: Value, acc: Option<string>)
    requires !IsError(acc)
    ensures forall i :: 0 <= i < |validators| && IsError(validators[i](x)) &&
                        (forall j :: 0 <= j < i ==> !IsError(validators[j](x))) ==>
                          Reduce(validators, x, acc) == validators[i](x)
    ensures (forall i :: 0 <= i < |validators| ==> !IsError(validators[i](x))) ==>
              Reduce(validators, x, acc) == if validators == [] then acc else validators[|validators| - 1](x)
  {
    if validators != [] {
      var first := validators[0](x);
      if IsError(first) {
        ReduceKeepsError(validators[1..], x, first);
      } else {
        ComposeFirstError(validators[1..], x, first);
        forall i | 0 <= i < |validators| && IsError(validators[i](x)) &&
                   (forall j :: 0 <= j < i ==> !IsError(validators[j](x)))
          ensures Reduce(validators, x, acc) == validators[i](x)
        {
          assert i > 0;
          assert validators[1..][i - 1] == validators[i];
          assert forall j :: 0 <= j < i - 1 ==> !IsError(validators[1..][j](x)) by {
            forall j | 0 <= j < i - 1 ensures !IsError(validators[1..][j](x)) {
              assert validators[1..][j] == validators[j + 1];
            }
          }
        }
        if forall i :: 0 <= i < |validators| ==> !IsError(validators[i](x)) {
          assert forall i :: 0 <= i < |validators[1..]| ==> !IsError(validators[1..][i](x)) by {
            forall i | 0 <= i < |validators[1..]| ensures !IsError(validators[1..][i](x)) {
              assert validators[1..][i] == validators[i + 1];
            }
          }
        }
      }
    }
  }

  /** A composition of validators that all accept a value accepts it. */
  lemma ComposeAllPass(validators: seq<Validator>, x: Value)
    requires forall i :: 0 <= i < |validators| ==> validators[i](x) == None
    ensures ComposeValidators(validators)(x) == None
  {
    ComposeFirstError(validators, x, None);
  }

  /** JavaScript's WhiteSpace and LineTerminator characters, which `trim` removes. */
  predicate IsJsWhiteSpace(c: char) {
    c == '\t' || c == '\n' || c == '\U{000B}' || c == '\U{000C}' || c == '\r' || c == ' ' ||
    c == '\U{00A0}' || c == '\U{1680}' || ('\U{2000}' <= c <= '\U{200A}') ||
    c == '\U{2028}' || c == '\U{2029}' || c == '\U{202F}' || c == '\U{205F}' ||
    c == '\U{3000}' || c == '\U{FEFF}'
  }

  function TrimStart(s: string): string {
    if |s| > 0 && IsJsWhiteSpace(s[0]) then TrimStart(s[1..]) else s
  }

  function TrimEnd(s: string): string {
    if |s| > 0 && IsJsWhiteSpace(s[|s| - 1]) then TrimEnd(s[..|s| - 1]) else s
  }

  /** `s.trim()` */
  function Trim(s: string): string {
    TrimEnd(TrimStart(s))
  }

  predicate Blank(s: string) {
    forall i :: 0 <= i < |s| ==> IsJsWhiteSpace(s[i])
  }

  lemma {:induction false} TrimStartEmpty(s: string)
    ensures TrimStart(s) == [] <==> Blank(s)
    ensures TrimStart(s) != [] ==> !IsJsWhiteSpace(TrimStart(s)[0])
  {
    if |s| > 0 && IsJsWhiteSpace(s[0]) {
      TrimStartEmpty(s[1..]);
      assert Blank(s) <==> Blank(s[1..]) by {
        assert forall i :: 0 <= i < |s[1..]| ==> s[1..][i] == s[i + 1];
      }
    }
  }

  lemma {:induction false} TrimEndKeepsStart(s: string)
    requires s != [] && !IsJsWhiteSpace(s[0])
    ensures TrimEnd(s) != []
  {
    if IsJsWhiteSpace(s[|s| - 1]) {
      TrimEndKeepsStart(s[..|s| - 1]);
    }
  }

  /** A string trims to nothing exactly when all its characters are white space. */
  lemma TrimEmptyIffBlank(s: string)
    ensures |Trim(s)| == 0 <==> Blank(s)
  {
    TrimStartEmpty(s);
    if TrimStart(s) != [] {
      TrimEndKeepsStart(TrimStart(s));
    }
  }

  function RequiredBase(value: Value): (ok: bool)
    ensures !ok <==> value.None? || Blank(value.value)
  {
    if value.None? then false
    else
      TrimEmptyIffBlank(value.value);
      |Trim(value.value)| != 0
  }

  /** `isFinite(value)`; `undefined` converts to `NaN`, which is not finite. */
  function NumberBase(js: JsNumbers, value: Value): (ok: bool)
    ensures value.None? ==> !ok
    ensures value.Some? ==> (ok <==> js.isFinite(value.value))
  {
    value.Some? && js.isFinite(value.value)
  }

  function IntegerBase(js: JsNumbers, value: Value): (ok: bool)
    ensures ok ==> NumberBase(js, value)
  {
    if !NumberBase(js, value) then false else js.parsesAsInteger(value.value)
  }

  /** The three validators form fields use, by name. */
  datatype NamedValidator = Required | Number | Integer

  function Denote(js: JsNumbers, v: NamedValidator): Validator {
    match v
    case Required => MakeValidator(RequiredBase, "Required")
    case Number => MakeValidator(x => NumberBase(js, x), "Must be a number")
    case Integer => MakeValidator(x => IntegerBase(js, x), "Must be an integer")
  }

  /** `composeValidators(...validators)` for a list of named validators. */
  function Validate(js: JsNumbers, validators: seq<NamedValidator>, x: Value): Option<string> {
    ComposeValidators(seq(|validators|, i requires 0 <= i < |validators| => Denote(js, validators[i])))(x)
  }

  /** A required-then-number/integer field rejects a missing or blank value with `Required`. */
  lemma RequiredComesFirst(js: JsNumbers, rest: seq<NamedValidator>, x: Value)
    requires x.None? || Blank(x.value)
    ensures Validate(js, [Required] + rest, x) == Some("Required")
  {
    var vs := seq(|[Required] + rest|, i requires 0 <= i < |[Required] + rest| => Denote(js, ([Required] + rest)[i]));
    assert vs[0](x) == Some("Required");
    ComposeFirstError(vs, x, None);
  }

  datatype FieldType = StringType | NumberType | IntegerType | OtherType(name: string)

  /** A parameter as the server describes it; `caption` is its `label`. */
  datatype ServerField = ServerField(
    fieldType: FieldType, caption: Option<string>, description: Option<string>, defaultValue: Option<string>)

  datatype FormField = FormField(
    name: string, caption: string, initial: Option<string>,
    validator: Option<seq<NamedValidator>>, width: Option<int>, inputType: Option<string>)

  /**
   * The input type and validators a field gets from its parameter's type:
   * `Required` always comes first, a number adds `Number`, an integer adds
   * `Integer` and is shown as a number, and an unknown type has no input type.
   */
  predicate TypedAs(t: FieldType, f: FormField) {
    match t
    case StringType => f.inputType == Some("string") && f.validator == Some([Required])
    case NumberType => f.inputType == Some("number") && f.validator == Some([Required, Number])
    case IntegerType => f.inputType == Some("number") && f.validator == Some([Required, Integer])
    case OtherType(_) => f.inputType == None && f.validator == Some([Required])
  }

  /** One form field per server parameter, in the parameters' order. */
  method MakeFormFields(serverFields: Dict<ServerField>) returns (fields: seq<FormField>)
    ensures |fields| == |serverFields|
    ensures forall i :: 0 <= i < |fields| ==>
              var (name, field) := serverFields[i];
              fields[i].name == name && fields[i].width == Some(6) &&
              fields[i].initial == field.defaultValue &&
              fields[i].caption == (if field.caption.Some? && field.caption.value != "" then field.caption.value else name)
    ensures forall i :: 0 <= i < |fields| ==>
              fields[i].validator.Some? && |fields[i].validator.value| >= 1 && fields[i].validator.value[0] == Required
    ensures forall i :: 0 <= i < |fields| ==> TypedAs(serverFields[i].1.fieldType, fields[i])
  {
    fields := [];
    for i := 0 to |serverFields|
      invariant |fields| == i
      invariant forall k :: 0 <= k < i ==>
                  var (name, field) := serverFields[k];
                  fields[k].name == name && fields[k].width == Some(6) &&
                  fields[k].initial == field.defaultValue &&
                  fields[k].caption == (if field.caption.Some? && field.caption.value != "" then field.caption.value else name)
      invariant forall k :: 0 <= k < i ==> TypedAs(serverFields[k].1.fieldType, fields[k])
    {
      var (name, field) := serverFields[i];
      var caption := if field.caption.Some? && field.caption.value != "" then field.caption.value else name;
      var initial := field.defaultValue;
      var width := 6;
      var inputType: Option<string> := None;
      var validators := [Required];
      match field.fieldType {
        case StringType =>
          inputType := Some("string");
        case NumberType =>
          inputType := Some("number");
          validators := validators + [Number];
        case IntegerType =>
          inputType := Some("number");
          validators := validators + [Integer];
        case OtherType(_) =>
      }
      var formField := FormField(name, caption, initial, Some(validators), Some(width), inputType);
      assert TypedAs(field.fieldType, formField) by {
        assert [Required] + [Number] == [Required, Number];
        assert [Required] + [Integer] == [Required, Integer];
      }
      fields := fields + [formField];
    }
  }
}
