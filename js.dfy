/** JavaScript values, as far as the component tells them apart, and the string
    operations it uses on them. */
module Js {

  datatype Option<T> = None | Some(value: T)

  /** A JavaScript value. The two absent values `undefined` and `null` stay
      distinct; the component never looks inside an object other than the ones
      modelled by their own datatypes, so every such object is `Obj`. */
  datatype Value = Undefined | Null | Bool(b: bool) | Str(s: string) | Obj

  /** A value that is a string or absent: alerts, server error messages and the
      parts of an error model. */
  type Text = v: Value | v.Undefined? || v.Null? || v.Str? witness Undefined

  /** A record field value as the record service delivers it for the text and
      picklist fields the component asks for. */
  type NullableString = v: Value | v.Null? || v.Str? witness Null

  /** Either absent value. */
  predicate Absent(v: Value) {
    v.Undefined? || v.Null?
  }

  /** JavaScript truthiness. */
  predicate Truthy(v: Value) {
    match v
    case Undefined => false
    case Null => false
    case Bool(b) => b
    case Str(s) => s != ""
    case Obj => true
  }

  /** `String.prototype.startsWith`. */
  predicate StartsWith(s: string, prefix: string) {
    |prefix| <= |s| && s[..|prefix|] == prefix
  }

  /** `String.prototype.includes`: `part` occurs in `s` at some position. */
  predicate Includes(s: string, part: string)
    decreases |s|
  {
    StartsWith(s, part) || (|s| > 0 && Includes(s[1..], part))
  }

  /** An occurrence of `part` at any index makes `Includes` hold. */
  lemma {:induction false} IncludesAt(s: string, part: string, i: nat)
    requires i + |part| <= |s| && s[i..i + |part|] == part
    ensures Includes(s, part)
    decreases i
  {
    if i == 0 {
      assert s[..|part|] == s[0..|part|];
    } else {
      assert s[1..][i - 1..i - 1 + |part|] == s[i..i + |part|];
      IncludesAt(s[1..], part, i - 1);
    }
  }

  /** Conversely, when `Includes` holds this is an index where `part` occurs,
      so `Includes` holds exactly when an occurrence exists. */
  function FirstAt(s: string, part: string): (i: nat)
    requires Includes(s, part)
    ensures i + |part| <= |s| && s[i..i + |part|] == part
    decreases |s|
  {
    if StartsWith(s, part) then
      0
    else
      var j := FirstAt(s[1..], part);
      assert s[1..][j..j + |part|] == s[j + 1..j + 1 + |part|];
      j + 1
  }

  /** The `isNull` and `isUndefined` helpers of the shared utility module, whose
      bodies are not part of this model. Each accepts the absent value it is
      named for and never a present value; whether `isNull` also accepts
      `undefined`, and whether `isUndefined` also accepts `null`, is left open. */
  datatype AbsenceChecks = AbsenceChecks(nullAcceptsUndefined: bool, undefinedAcceptsNull: bool) {

    predicate IsNull(v: Value) {
      v.Null? || (v.Undefined? && nullAcceptsUndefined)
    }

    predicate IsUndefined(v: Value) {
      v.Undefined? || (v.Null? && undefinedAcceptsNull)
    }
  }
}
