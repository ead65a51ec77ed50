/** Identifier normalisation of the data-access gateway (server/access/db.js,
    `processArguments`): every argument that is a non-array object with a
    truthy `_id` gets that field replaced by a driver ObjectID built from it.
    The ObjectID constructor belongs to the driver and is a parameter here. */
module DbArguments {
  import opened Wrappers
  import opened JsValue

  /** Why normalising an argument list can fail. */
  datatype NormaliseError =
    /** `arg._id` read on a `null` argument, which passes the `typeof` test. */
    | NullArgument
    /** The driver's ObjectID constructor rejected an `_id` value. */
    | BadObjectId(reason: string)

  /** `new ObjectID(value)`: the driver's construction, failing on values it
      cannot turn into an identifier (a malformed hex string, say). */
  type ObjectIdCtor = JVal -> Result<ObjectId, string>

  /** The argument is a plain object whose own `_id` is truthy: the only shape
      normalisation rewrites. */
  predicate HasTruthyId(v: JVal) {
    v.JObj? && "_id" in v.fields && Truthy(v.fields["_id"])
  }

  /** The treatment of one argument inside the `forEach` of `processArguments`. */
  function NormaliseArg(objectId: ObjectIdCtor, v: JVal): (r: Result<JVal, NormaliseError>)
    // it fails exactly on `null` and on an `_id` the driver refuses
    ensures r.Failure? <==> v == JNull || (HasTruthyId(v) && objectId(v.fields["_id"]).Failure?)
    ensures v == JNull ==> r == Failure(NullArgument)
    ensures HasTruthyId(v) && objectId(v.fields["_id"]).Failure? ==>
      r == Failure(BadObjectId(objectId(v.fields["_id"]).error))
    // arrays, primitives, functions, ObjectIDs and objects without a truthy
    // `_id` (falsy ones such as "" or 0 included) come back as they were
    ensures v != JNull && !HasTruthyId(v) ==> r == Success(v)
    // a rewritten object keeps its key set, gains the ObjectID in `_id` and
    // changes no other field: nested objects are not looked into
    ensures HasTruthyId(v) && r.Success? ==>
      && r.value.JObj?
      && r.value.fields.Keys == v.fields.Keys
      && r.value.fields["_id"] == JOid(objectId(v.fields["_id"]).value)
      && (forall k :: k in v.fields && k != "_id" ==> r.value.fields[k] == v.fields[k])
  {
    if !TypeofObject(v) || IsArray(v) then Success(v)
    else if v.JNull? then Failure(NullArgument)
    else
      var id := OwnProperty(v, "_id");
      if Truthy(id) then
        match objectId(id)
        case Success(oid) => Success(JObj(v.fields["_id" := JOid(oid)]))
        case Failure(e) => Failure(BadObjectId(e))
      else Success(v)
  }

  /** `processArguments(args)`: the arguments treated one by one in order; the
      first argument that fails stops the walk and its error is the result. */
  function NormaliseArgs(objectId: ObjectIdCtor, args: seq<JVal>): (r: Result<seq<JVal>, NormaliseError>)
    // it succeeds exactly when every argument does on its own
    ensures r.Success? <==> forall i :: 0 <= i < |args| ==> NormaliseArg(objectId, args[i]).Success?
    // same length, same order, each element treated independently
    ensures r.Success? ==>
      && |r.value| == |args|
      && forall i :: 0 <= i < |args| ==> r.value[i] == NormaliseArg(objectId, args[i]).value
    // on failure the error is that of the first failing argument
    ensures r.Failure? ==>
      exists i :: 0 <= i < |args|
        && NormaliseArg(objectId, args[i]) == Failure(r.error)
        && forall j :: 0 <= j < i ==> NormaliseArg(objectId, args[j]).Success?
    decreases |args|
  {
    if |args| == 0 then Success([])
    else
      match NormaliseArg(objectId, args[0])
      case Failure(e) => Failure(e)
      case Success(head) =>
        match NormaliseArgs(objectId, args[1..])
        case Failure(e) =>
          ghost var i :| 0 <= i < |args| - 1
            && NormaliseArg(objectId, args[1..][i]) == Failure(e)
            && forall j :: 0 <= j < i ==> NormaliseArg(objectId, args[1..][j]).Success?;
          assert NormaliseArg(objectId, args[i + 1]) == Failure(e);
          Failure(e)
        case Success(tail) => Success([head] + tail)
  }

  /** The ObjectID constructor accepts an ObjectID and gives back the same
      identifier, as the driver's constructor does when handed an instance. */
  ghost predicate AcceptsObjectIds(objectId: ObjectIdCtor) {
    forall o :: objectId(JOid(o)) == Success(o)
  }

  /** Normalising one argument twice is the same as normalising it once. */
  lemma NormaliseArgIdempotent(objectId: ObjectIdCtor, v: JVal)
    requires AcceptsObjectIds(objectId)
    requires NormaliseArg(objectId, v).Success?
    ensures NormaliseArg(objectId, NormaliseArg(objectId, v).value) == NormaliseArg(objectId, v)
  {
    var w := NormaliseArg(objectId, v).value;
    if HasTruthyId(v) {
      var o := objectId(v.fields["_id"]).value;
      assert w.fields["_id"] == JOid(o);
      assert objectId(JOid(o)) == Success(o);
      var m' := w.fields["_id" := JOid(o)];
      assert m' == w.fields;
    }
  }

  /** Normalisation is idempotent on whole argument lists: arguments that
      already went through `processArguments` pass through it again unchanged. */
  lemma NormaliseArgsIdempotent(objectId: ObjectIdCtor, args: seq<JVal>)
    requires AcceptsObjectIds(objectId)
    requires NormaliseArgs(objectId, args).Success?
    ensures NormaliseArgs(objectId, NormaliseArgs(objectId, args).value) == NormaliseArgs(objectId, args)
  {
    var once := NormaliseArgs(objectId, args).value;
    forall i | 0 <= i < |once|
      ensures NormaliseArg(objectId, once[i]) == Success(once[i])
    {
      NormaliseArgIdempotent(objectId, args[i]);
    }
    var twice := NormaliseArgs(objectId, once);
    assert twice.Success?;
    assert twice.value == once;
  }

  /** Arrays and objects without `_id` pass through; a falsy `_id` (`""`,
      `0`) is left as it is; a `null` argument fails even after good ones. */
  lemma NormaliseExamples(objectId: ObjectIdCtor)
    ensures var args := [JArr([JStr("a"), JStr("b")]), JObj(map["name" := JStr("x")])];
            NormaliseArgs(objectId, args) == Success(args)
    ensures var args := [JObj(map["_id" := JStr("")]), JObj(map["_id" := JNum(0.0)])];
            NormaliseArgs(objectId, args) == Success(args)
    ensures NormaliseArgs(objectId, [JStr("x"), JNull]) == Failure(NullArgument)
  {
    var a := [JArr([JStr("a"), JStr("b")]), JObj(map["name" := JStr("x")])];
    assert !HasTruthyId(a[0]) && !HasTruthyId(a[1]);
    assert NormaliseArgs(objectId, a).Success?;
    assert NormaliseArgs(objectId, a).value == a;
    var b := [JObj(map["_id" := JStr("")]), JObj(map["_id" := JNum(0.0)])];
    assert !HasTruthyId(b[0]) && !HasTruthyId(b[1]);
    assert NormaliseArgs(objectId, b).Success?;
    assert NormaliseArgs(objectId, b).value == b;
  }
}
