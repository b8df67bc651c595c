/** The JSON values a request body parses to, with JavaScript's property access and
    truthiness on them. */
module Json {
  import opened Common

  datatype Value =
    | Null
    | Bool(b: bool)
    | Number(n: real)
    | Str(s: string)
    | Array(items: seq<Value>)
    | Object(fields: map<string, Value>)

  /** Reading `v.key` on a value that is not `null`: an object's own member, `undefined`
      (`None`) for a missing member and for every non-object. */
  function Member(v: Value, key: string): (r: Option<Value>)
    ensures r.Some? <==> v.Object? && key in v.fields
    ensures r.Some? ==> r.value == v.fields[key]
  {
    if v.Object? && key in v.fields then Some(v.fields[key]) else None
  }

  /** JavaScript truthiness; `undefined` is `None`. JSON has no `NaN`, so a number is
      falsy exactly when it is zero. */
  predicate Truthy(v: Option<Value>)
  {
    match v
    case None => false
    case Some(Null) => false
    case Some(Bool(b)) => b
    case Some(Number(n)) => n != 0.0
    case Some(Str(s)) => s != ""
    case Some(Array(_)) => true
    case Some(Object(_)) => true
  }

  /** `v.length` where it is a number: strings and arrays have one; an object has one when
      it carries a numeric `length` member. */
  function Length(v: Value): (r: Option<real>)
    ensures v.Str? ==> r == Some(|v.s| as real)
    ensures v.Array? ==> r == Some(|v.items| as real)
    ensures v.Null? || v.Bool? || v.Number? ==> r == None
  {
    match v
    case Str(s) => Some(|s| as real)
    case Array(items) => Some(|items| as real)
    case Object(fields) =>
      if "length" in fields && fields["length"].Number? then Some(fields["length"].n) else None
    case _ => None
  }
}
