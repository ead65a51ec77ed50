/** The JavaScript values that can reach the data-access gateway as call
    arguments, with the two runtime tests the gateway applies to them:
    `typeof v === 'object'` and truthiness. */
module JsValue {

  /** A driver ObjectID: the 12-byte binary identifier. How the driver builds
      one from a hex string is not modelled; the bytes are whatever it chose. */
  datatype ObjectId = ObjectId(bytes: seq<bv8>)

  /** A JavaScript value. Numbers are reals (so -0 and 0 coincide, as they do
      for truthiness); NaN is its own constructor. `JFun` stands for a function
      value such as a callback, identified only by a tag. `JOid` is an ObjectID
      instance, an object without an own `_id` property. */
  datatype JVal =
    | JUndefined
    | JNull
    | JBool(b: bool)
    | JNum(n: real)
    | JNaN
    | JStr(s: string)
    | JFun(tag: nat)
    | JArr(elems: seq<JVal>)
    | JObj(fields: map<string, JVal>)
    | JOid(oid: ObjectId)

  /** JavaScript truthiness: `undefined`, `null`, `false`, `0`, `NaN` and `""`
      are falsy; every other value, including every object and array, is truthy. */
  predicate Truthy(v: JVal) {
    match v
    case JUndefined => false
    case JNull => false
    case JBool(b) => b
    case JNum(n) => n != 0.0
    case JNaN => false
    case JStr(s) => s != ""
    case _ => true
  }

  /** The `typeof` operator. */
  function Typeof(v: JVal): string {
    match v
    case JUndefined => "undefined"
    case JNull => "object"
    case JBool(_) => "boolean"
    case JNum(_) => "number"
    case JNaN => "number"
    case JStr(_) => "string"
    case JFun(_) => "function"
    case JArr(_) => "object"
    case JObj(_) => "object"
    case JOid(_) => "object"
  }

  /** `typeof v === 'object'`. */
  predicate TypeofObject(v: JVal) {
    Typeof(v) == "object"
  }

  /** The values that pass `typeof v === 'object'` are `null`, arrays, plain
      objects and ObjectID instances; `undefined`, booleans, numbers, strings
      and functions do not. */
  lemma TypeofObjectCases(v: JVal)
    ensures TypeofObject(v) <==> v.JNull? || v.JArr? || v.JObj? || v.JOid?
  {
  }

  /** Exactly six values are falsy. */
  lemma FalsyValues(v: JVal)
    ensures !Truthy(v) <==>
      v in {JUndefined, JNull, JBool(false), JNum(0.0), JNaN, JStr("")}
  {
  }

  /** `v instanceof Array`. */
  predicate IsArray(v: JVal) {
    v.JArr?
  }

  /** The value of an own property `key` of `v` as a property read sees it when
      it does not throw: missing properties read as `undefined`. Prototype
      properties are not modelled. */
  function OwnProperty(v: JVal, key: string): JVal
    requires !v.JNull? && !v.JUndefined?
  {
    match v
    case JObj(m) => if key in m then m[key] else JUndefined
    case _ => JUndefined
  }
}
