/** Operation dispatch of the data-access gateway (server/access/db.js,
    `wrapped` and the table of exported operations). A call does not reach
    the database here: the model returns the driver call the gateway would
    make (the target, the method name and the normalised arguments), whose
    result the gateway hands back unchanged. */
module DbDispatch {
  import opened Wrappers
  import opened JsValue
  import opened DbConnection
  import opened DbArguments

  /** A collection object resolved from a handle; opaque to the gateway. */
  datatype CollectionRef = CollectionRef(handle: Handle, id: nat)

  /** What the gateway needs from the driver besides dialling: the ObjectID
      constructor and `db.collection(name)`, which may throw. */
  datatype Driver = Driver(
    objectId: ObjectIdCtor,
    collectionOf: (Handle, JVal) -> Result<CollectionRef, DriverError>)

  /** The object a driver method is applied to. */
  datatype Target = OnHandle(handle: Handle) | OnCollection(coll: CollectionRef)

  /** `target[key].apply(target, args)`, as the gateway issues it. */
  datatype DriverCall = DriverCall(target: Target, key: string, args: seq<JVal>)

  /** Why a wrapped operation fails before reaching the driver method. */
  datatype GatewayError =
    /** The `db` slot still holds `false`, so `db.collection` or `db[key]`
        is not a function. */
    | NotConnected
    /** `db.collection(name)` threw. */
    | CollectionFailed(driverError: DriverError)
    /** `processArguments` threw. */
    | BadArguments(argError: NormaliseError)

  /** The first argument of a collection-level call (`undefined` if there is none). */
  function CollectionName(args: seq<JVal>): JVal {
    if |args| > 0 then args[0] else JUndefined
  }

  /** The arguments a collection-level call forwards: all but the first. */
  function Forwarded(args: seq<JVal>): (r: seq<JVal>)
    // the collection name followed by the forwarded arguments is the whole call
    ensures |args| > 0 ==> [CollectionName(args)] + r == args
    ensures |args| == 0 ==> r == []
  {
    if |args| > 0 then args[1..] else []
  }

  /** The arguments `processArguments` receives: all of them for a
      database-level call, all but the collection name otherwise. */
  function Passed(collectionMethod: bool, args: seq<JVal>): seq<JVal> {
    if collectionMethod then Forwarded(args) else args
  }

  /** The function `wrapped(key, collectionMethod)` returns, applied to `args`
      while the `db` slot holds `slot`. */
  function Wrapped(drv: Driver, key: string, collectionMethod: bool,
                   slot: Option<Handle>, args: seq<JVal>): (r: Result<DriverCall, GatewayError>)
    // nothing is dispatched without a stored handle, and that is checked first
    ensures r == Failure(NotConnected) <==> slot.None?
    // a collection that cannot be resolved stops the call before normalisation
    ensures r.Failure? && r.error.CollectionFailed? <==>
      slot.Some? && collectionMethod && drv.collectionOf(slot.value, CollectionName(args)).Failure?
    ensures r.Failure? && r.error.CollectionFailed? ==>
      r.error.driverError == drv.collectionOf(slot.value, CollectionName(args)).error
    // a normalisation failure is the one `processArguments` raises on the passed arguments
    ensures r.Failure? && r.error.BadArguments? ==>
      slot.Some? && NormaliseArgs(drv.objectId, Passed(collectionMethod, args)) == Failure(r.error.argError)
    // a dispatched call goes to `key` on the stored handle, or on the collection
    // named by the raw, un-normalised first argument
    ensures r.Success? ==> slot.Some? && r.value.key == key
    ensures r.Success? && !collectionMethod ==> r.value.target == OnHandle(slot.value)
    ensures r.Success? && collectionMethod ==>
      && drv.collectionOf(slot.value, CollectionName(args)).Success?
      && r.value.target == OnCollection(drv.collectionOf(slot.value, CollectionName(args)).value)
    // it carries the passed arguments, each normalised on its own, in order
    ensures r.Success? ==>
      && |r.value.args| == |Passed(collectionMethod, args)|
      && forall i :: 0 <= i < |r.value.args| ==>
           && NormaliseArg(drv.objectId, Passed(collectionMethod, args)[i]).Success?
           && r.value.args[i] == NormaliseArg(drv.objectId, Passed(collectionMethod, args)[i]).value
    // and it is dispatched whenever the handle, the collection and every passed argument allow it
    ensures slot.Some?
      && (collectionMethod ==> drv.collectionOf(slot.value, CollectionName(args)).Success?)
      && (forall i :: 0 <= i < |Passed(collectionMethod, args)| ==>
            NormaliseArg(drv.objectId, Passed(collectionMethod, args)[i]).Success?)
      ==> r.Success?
  {
    match slot
    case None => Failure(NotConnected)
    case Some(db) =>
      if collectionMethod then
        match drv.collectionOf(db, CollectionName(args))
        case Failure(e) => Failure(CollectionFailed(e))
        case Success(c) =>
          match NormaliseArgs(drv.objectId, Forwarded(args))
          case Failure(e) => Failure(BadArguments(e))
          case Success(a) => Success(DriverCall(OnCollection(c), key, a))
      else
        match NormaliseArgs(drv.objectId, args)
        case Failure(e) => Failure(BadArguments(e))
        case Success(a) => Success(DriverCall(OnHandle(db), key, a))
  }

  /** The operations the gateway exports. */
  datatype Operation = Collection | Insert | Update | UpdateOne | Find | Remove | FindOne | Count

  /** The driver method each operation is bound to. */
  function Key(op: Operation): string {
    match op
    case Collection => "collection"
    case Insert => "insert"
    case Update => "update"
    case UpdateOne => "updateOne"
    case Find => "find"
    case Remove => "remove"
    case FindOne => "findOne"
    case Count => "count"
  }

  /** Whether the operation is bound as collection-level. */
  predicate IsCollectionLevel(op: Operation) {
    op != Collection
  }

  /** The exported operation `op` applied to `args`. */
  function Invoke(drv: Driver, op: Operation, slot: Option<Handle>, args: seq<JVal>): (r: Result<DriverCall, GatewayError>)
    ensures r == Wrapped(drv, Key(op), IsCollectionLevel(op), slot, args)
    // `collection` is applied to the handle, every other operation to a collection
    ensures r.Success? ==> r.value.key == Key(op) && (r.value.target.OnHandle? <==> op == Collection)
  {
    Wrapped(drv, Key(op), IsCollectionLevel(op), slot, args)
  }

  /** The table binds eight distinct driver methods: `collection` on the handle,
      the seven others on a named collection. */
  lemma OperationTable()
    ensures forall op: Operation :: IsCollectionLevel(op) <==> op != Collection
    ensures forall op1: Operation, op2: Operation :: Key(op1) == Key(op2) ==> op1 == op2
    ensures Key(Collection) == "collection" && !IsCollectionLevel(Collection)
  {
  }

  /** For a collection-level operation the first argument is only a name: it
      is handed raw to `db.collection` and never normalised (even a `null` or
      an object with a malformed `_id` there does not fail), while the rest is
      normalised and forwarded. */
  lemma CollectionNameIsNotNormalised(drv: Driver, op: Operation, h: Handle, name: JVal, rest: seq<JVal>)
    requires IsCollectionLevel(op)
    requires drv.collectionOf(h, name).Success?
    requires NormaliseArgs(drv.objectId, rest).Success?
    ensures Invoke(drv, op, Some(h), [name] + rest)
         == Success(DriverCall(OnCollection(drv.collectionOf(h, name).value), Key(op),
                               NormaliseArgs(drv.objectId, rest).value))
  {
  }
}
