/**
 * JavaScript values as the core passes them around untyped (`any`,
 * `unknown`): tool parameters, tool result data and database rows. Numbers
 * are restricted to integers; `String(v)` and truthiness follow JavaScript
 * for the values modelled.
 */
module JsValues {
  import opened Wrappers
  import opened Strings

  datatype JsValue =
    | Undefined
    | Null
    | Bool(b: bool)
    | Number(n: int)
    | Str(s: string)
    | Arr(items: seq<JsValue>)
    /** A plain object, its own enumerable properties in enumeration order. */
    | Obj(entries: seq<(string, JsValue)>)

  /** `!v` holds: the falsy values among those modelled. */
  predicate Falsy(v: JsValue) {
    v == Undefined || v == Null || v == Bool(false) || v == Number(0) || v == Str("")
  }

  /** `typeof v === 'object'` (arrays are objects; `null` is too, but it is falsy). */
  predicate IsObject(v: JsValue) {
    v.Null? || v.Arr? || v.Obj?
  }

  predicate IsNullish(v: JsValue) {
    v.Null? || v.Undefined?
  }

  /** Decimal rendering of an integer, with a leading '-' when negative. */
  function IntToString(n: int): (r: string)
    ensures n >= 0 ==> r == NatToString(n)
    ensures n < 0 ==> r == "-" + NatToString(-n)
  {
    if n >= 0 then NatToString(n) else "-" + NatToString(-n)
  }

  /** `String(v)`. An array renders its elements joined by ",", with `null` and
      `undefined` elements rendered as the empty string. */
  function ToJsString(v: JsValue): string
    decreases v
  {
    match v
    case Undefined => "undefined"
    case Null => "null"
    case Bool(b) => if b then "true" else "false"
    case Number(n) => IntToString(n)
    case Str(s) => s
    case Arr(items) =>
      Join(seq(|items|, i requires 0 <= i < |items| =>
                 if IsNullish(items[i]) then "" else ToJsString(items[i])), ",")
    case Obj(_) => "[object Object]"
  }

  /** `Object.values(v)` for an object or array. */
  function Values(v: JsValue): seq<JsValue>
    requires v.Arr? || v.Obj?
  {
    if v.Arr? then v.items
    else seq(|v.entries|, i requires 0 <= i < |v.entries| => v.entries[i].1)
  }

  /** `values[0]`: `undefined` when there is no first element. */
  function First(values: seq<JsValue>): JsValue {
    if values == [] then Undefined else values[0]
  }

  /** `readSingleValue(row)`: the first column of a database row, as a string. */
  function ReadSingleValue(row: JsValue): Option<string> {
    if Falsy(row) || !IsObject(row) then None
    else
      var v := First(Values(row));
      if v.Str? then Some(v.s)
      else if IsNullish(v) then None
      else Some(ToJsString(v))
  }

  /** A row that is falsy or not an object has no value. */
  lemma ReadSingleValueOfNonRow(row: JsValue)
    requires Falsy(row) || !(row.Arr? || row.Obj?)
    ensures ReadSingleValue(row) == None
  {
  }

  /** For a row, the result is `String` of the first value, unless that value
      is missing, `null` or `undefined`: strings are returned unchanged. */
  lemma ReadSingleValueOfRow(row: JsValue)
    requires row.Obj? || row.Arr?
    ensures var v := First(Values(row));
            ReadSingleValue(row) == if IsNullish(v) then None else Some(ToJsString(v))
    ensures var v := First(Values(row));
            v.Str? ==> ReadSingleValue(row) == Some(v.s)
  {
  }

  /** A row whose first value is a natural number yields its decimal digits,
      which read back to the number. */
  lemma {:induction false} ReadSingleValueOfCount(name: string, n: nat, rest: seq<(string, JsValue)>)
    ensures var r := ReadSingleValue(Obj([(name, Number(n))] + rest));
            r.Some? && (forall i :: 0 <= i < |r.value| ==> IsDigit(r.value[i])) &&
            DigitsValue(r.value) == n
  {
    var row := Obj([(name, Number(n))] + rest);
    assert First(Values(row)) == Number(n);
    DigitsValueOfNatToString(n);
  }

  /** `String` of an array of strings is their comma-join. */
  lemma {:induction false} ToJsStringOfStrings(xs: seq<string>)
    ensures ToJsString(Arr(seq(|xs|, i requires 0 <= i < |xs| => Str(xs[i])))) == Join(xs, ",")
  {
    var items := seq(|xs|, i requires 0 <= i < |xs| => Str(xs[i]));
    var shown := seq(|items|, i requires 0 <= i < |items| =>
                       if IsNullish(items[i]) then "" else ToJsString(items[i]));
    assert shown == xs;
  }

  /** `String` of a plain object does not depend on its contents. */
  lemma ObjectToString(a: seq<(string, JsValue)>, b: seq<(string, JsValue)>)
    ensures ToJsString(Obj(a)) == ToJsString(Obj(b)) == "[object Object]"
  {
  }
}
