/** The `%TypedArray%` intrinsic and AllocateTypedArray (sections 23.2.1.1 and
    23.2.5.1.1 of ECMA-262, 2021 edition). */
module TypedArray {
  import opened Results
  import opened JsValues
  import opened TypedArrayNames
  import opened IntegerIndexed

  const DIRECT_CALL_MESSAGE: string := "the TypedArray constructor should never be called directly"

  /** The `%TypedArray%` constructor: calling it, with or without a new target and
      whatever the arguments, throws a TypeError. */
  function TypedArrayConstructor(newTarget: Value, args: seq<Value>): (r: JsResult<Value>)
    ensures r.Err? && r.error.TypeError?
  {
    Err(TypeError(DIRECT_CALL_MESSAGE))
  }

  /** GetPrototypeFromConstructor(newTarget, defaultProto): the "prototype" property of
      the new target when that is an object, the default prototype otherwise. A failing
      property get is the only failure, and it is passed on unchanged. */
  function GetPrototypeFromConstructor(
    newTarget: Value, getPrototype: JsObject -> JsResult<Value>, defaultProto: JsObject)
    : (r: JsResult<JsObject>)
    ensures r.Err? <==> newTarget.Object? && getPrototype(newTarget.obj).Err?
    ensures r.Err? ==> r.error == getPrototype(newTarget.obj).error
    ensures newTarget.Object? && getPrototype(newTarget.obj).Ok? && getPrototype(newTarget.obj).value.Object?
            ==> r == Ok(getPrototype(newTarget.obj).value.obj)
    ensures (!newTarget.Object? || (getPrototype(newTarget.obj).Ok? && !getPrototype(newTarget.obj).value.Object?))
            ==> r == Ok(defaultProto)
  {
    match newTarget
    case Object(target) =>
      var proto :- getPrototype(target);
      Ok(if proto.Object? then proto.obj else defaultProto)
    case _ => Ok(defaultProto)
  }

  /** AllocateTypedArray(constructorName, newTarget, defaultProto [, length]): resolves the
      prototype, then builds an unattached view when no length is given and a view over a
      fresh zero-filled block of `length` elements otherwise. */
  function AllocateTypedArray(
    constructorName: TypedArrayName,
    newTarget: Value,
    getPrototype: JsObject -> JsResult<Value>,
    defaultProto: JsObject,
    length: Option<usize>)
    : (r: JsResult<IntegerIndexedObject>)
    requires length.Some? ==> ElementSize(constructorName) * length.value <= USIZE_MAX
    ensures r.Err? <==> GetPrototypeFromConstructor(newTarget, getPrototype, defaultProto).Err?
    ensures r.Err? ==> r.error == getPrototype(newTarget.obj).error
    ensures r.Ok? ==> GetPrototypeFromConstructor(newTarget, getPrototype, defaultProto) == Ok(r.value.prototype)
    ensures r.Ok? ==> r.value.typedArrayName == constructorName && ContentTypeMatches(r.value)
    ensures r.Ok? && length.None? ==> Unattached(r.value)
    ensures r.Ok? && length.Some? ==> FreshlyAllocated(r.value, length.value)
  {
    var proto :- GetPrototypeFromConstructor(newTarget, getPrototype, defaultProto);
    match length
    case None => Ok(New(proto, constructorName))
    case Some(n) => AllocateTypedArrayBuffer(proto, constructorName, n)
  }

  /** The view's prototype is the new target's "prototype" object whenever that get
      yields an object; the default prototype plays no part then. */
  lemma NewTargetPrototypeWins(
    constructorName: TypedArrayName, target: JsObject, getPrototype: JsObject -> JsResult<Value>,
    defaultProto: JsObject, length: Option<usize>, proto: JsObject)
    requires length.Some? ==> ElementSize(constructorName) * length.value <= USIZE_MAX
    requires getPrototype(target) == Ok(Object(proto))
    ensures AllocateTypedArray(constructorName, Object(target), getPrototype, defaultProto, length).Ok?
    ensures AllocateTypedArray(constructorName, Object(target), getPrototype, defaultProto, length).value.prototype == proto
  {
  }

  /** Every view AllocateTypedArray produces keeps its byte length a whole number of
      elements and views exactly `byteLength` bytes. */
  lemma AllocatedViewIsConsistent(
    constructorName: TypedArrayName, newTarget: Value, getPrototype: JsObject -> JsResult<Value>,
    defaultProto: JsObject, length: Option<usize>)
    requires length.Some? ==> ElementSize(constructorName) * length.value <= USIZE_MAX
    ensures var r := AllocateTypedArray(constructorName, newTarget, getPrototype, defaultProto, length);
            r.Ok? ==> && r.value.byteLength == ElementSize(constructorName) * r.value.arrayLength
                      && |r.value.viewedArrayBuffer.inner| == r.value.byteLength
                      && r.value.byteLength / ElementSize(constructorName) == r.value.arrayLength
  {
  }
}
