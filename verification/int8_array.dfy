/** The `Int8Array` constructor (section 23.2.5.1 of ECMA-262, 2021 edition): the ordered
    dispatch on the new target and the first argument. The initialisation of a view from
    another typed array, an array buffer, an iterable or an array-like object has no code
    behind it, so on every object argument the freshly allocated unattached view is
    returned as it is. */
module Int8ArrayBuiltin {
  import opened Results
  import opened JsValues
  import opened TypedArrayNames
  import opened IntegerIndexed
  import opened TypedArray

  const UNDEFINED_NEW_TARGET_MESSAGE: string := "new target was undefined when constructing an Int8Array"

  /** The constructor algorithm, with the symbol whose method the object-argument path
      looks up as a parameter (the source passes @@replace; the algorithm calls for
      @@iterator). The order of the checks is part of the contract:
      new target, then argument count, then (for an object argument) the prototype get
      before the method lookup, or (for a primitive argument) ToIndex before the
      prototype get. */
  function Construct(lookupKey: WellKnownSymbol, newTarget: Value, args: seq<Value>, host: Host)
    : (r: JsResult<IntegerIndexedObject>)
    // Calling without `new` throws before anything else is looked at.
    ensures newTarget.Undefined? ==> r == Err(TypeError(UNDEFINED_NEW_TARGET_MESSAGE))
    // Whatever comes out is an Int8Array view holding numbers.
    ensures r.Ok? ==> r.value.typedArrayName == Int8Array && r.value.contentType == ContentType.Number
    ensures r.Ok? ==> GetPrototypeFromConstructor(newTarget, host.getPrototype, host.typedArrayPrototype)
                      == Ok(r.value.prototype)
    // No arguments: an empty attached view.
    ensures !newTarget.Undefined? && |args| == 0 ==>
              && (r.Err? <==> newTarget.Object? && host.getPrototype(newTarget.obj).Err?)
              && (r.Err? ==> r.error == host.getPrototype(newTarget.obj).error)
              && (r.Ok? ==> FreshlyAllocated(r.value, 0) && r.value.byteLength == 0)
    // A primitive first argument: ToIndex first, then allocation of that many bytes.
    ensures !newTarget.Undefined? && |args| > 0 && !args[0].Object? ==>
              match host.toIndex(args[0])
              case Err(e) => r == Err(e)
              case Ok(n) =>
                && (r.Err? <==> newTarget.Object? && host.getPrototype(newTarget.obj).Err?)
                && (r.Err? ==> r.error == host.getPrototype(newTarget.obj).error)
                && (r.Ok? ==> FreshlyAllocated(r.value, n) && r.value.byteLength == n)
    // An object first argument: allocation without a length first, then (for an object
    // that is neither a typed array nor a buffer) the method lookup; the view stays unattached.
    ensures !newTarget.Undefined? && |args| > 0 && args[0].Object? ==>
              && (newTarget.Object? && host.getPrototype(newTarget.obj).Err? ==>
                    r == Err(host.getPrototype(newTarget.obj).error))
              && (r.Ok? ==> Unattached(r.value))
              && (GetPrototypeFromConstructor(newTarget, host.getPrototype, host.typedArrayPrototype).Ok? ==>
                    if args[0].obj.IsTypedArray() || args[0].obj.IsArrayBuffer() then r.Ok?
                    else (r.Err? <==> host.getMethod(args[0], lookupKey).Err?)
                         && (r.Err? ==> r.error == host.getMethod(args[0], lookupKey).error))
  {
    if newTarget.Undefined? then
      Err(TypeError(UNDEFINED_NEW_TARGET_MESSAGE))
    else if |args| == 0 then
      AllocateTypedArray(Int8Array, newTarget, host.getPrototype, host.typedArrayPrototype, Some(0))
    else
      var firstArgument := args[0];
      match firstArgument
      case Object(first) =>
        var o :- AllocateTypedArray(Int8Array, newTarget, host.getPrototype, host.typedArrayPrototype, None);
        if first.IsTypedArray() then
          Ok(o)
        else if first.IsArrayBuffer() then
          Ok(o)
        else
          var usingIterator :- host.getMethod(firstArgument, lookupKey);
          Ok(o)
      case _ =>
        var elementLength :- host.toIndex(firstArgument);
        IndexByteLengthFits(Int8Array, elementLength);
        AllocateTypedArray(Int8Array, newTarget, host.getPrototype, host.typedArrayPrototype, Some(elementLength))
  }

  /** `Int8Array ( ...args )` as the source has it: the object-argument path looks up
      the @@replace method. */
  function Constructor(newTarget: Value, args: seq<Value>, host: Host): (r: JsResult<IntegerIndexedObject>)
    ensures newTarget.Undefined? ==> r.Err? && r.error.TypeError?
    ensures r.Ok? ==> r.value.typedArrayName == Int8Array && r.value.contentType == ContentType.Number
    ensures !newTarget.Undefined? && |args| > 0 && args[0].Object? && !args[0].obj.IsTypedArray()
            && !args[0].obj.IsArrayBuffer()
            && GetPrototypeFromConstructor(newTarget, host.getPrototype, host.typedArrayPrototype).Ok?
            ==> && (r.Err? <==> host.getMethod(args[0], Replace).Err?)
                && (r.Err? ==> r.error == host.getMethod(args[0], Replace).error)
  {
    Construct(Replace, newTarget, args, host)
  }

  /** `Int8Array ( ...args )` as the source has it, with the one key corrected: the
      object-argument path looks up the @@iterator method instead of @@replace. The
      initialisation steps that follow the lookup have no code in the source and stay
      absent here, so on that path only the lookup can fail. */
  function IntendedConstructor(newTarget: Value, args: seq<Value>, host: Host): (r: JsResult<IntegerIndexedObject>)
    ensures newTarget.Undefined? ==> r.Err? && r.error.TypeError?
    ensures r.Ok? ==> r.value.typedArrayName == Int8Array && r.value.contentType == ContentType.Number
    ensures !newTarget.Undefined? && |args| > 0 && args[0].Object? && !args[0].obj.IsTypedArray()
            && !args[0].obj.IsArrayBuffer()
            && GetPrototypeFromConstructor(newTarget, host.getPrototype, host.typedArrayPrototype).Ok?
            ==> && (r.Err? <==> host.getMethod(args[0], Iterator).Err?)
                && (r.Err? ==> r.error == host.getMethod(args[0], Iterator).error)
  {
    Construct(Iterator, newTarget, args, host)
  }

  /** On a primitive argument ToIndex runs before the prototype get: when both would
      fail, the caller sees ToIndex's error. */
  lemma ToIndexFailsBeforePrototypeGet(newTarget: Value, args: seq<Value>, host: Host)
    requires newTarget.Object? && |args| > 0 && !args[0].Object?
    requires host.toIndex(args[0]).Err? && host.getPrototype(newTarget.obj).Err?
    ensures Constructor(newTarget, args, host) == Err(host.toIndex(args[0]).error)
  {
  }

  /** On an object argument the prototype get runs before the method lookup: when both
      would fail, the caller sees the prototype get's error. */
  lemma PrototypeGetFailsBeforeMethodLookup(newTarget: Value, args: seq<Value>, host: Host)
    requires newTarget.Object? && |args| > 0 && args[0].Object?
    requires host.getPrototype(newTarget.obj).Err? && host.getMethod(args[0], Replace).Err?
    ensures Constructor(newTarget, args, host) == Err(host.getPrototype(newTarget.obj).error)
  {
  }

  /** Because an empty allocation builds the same record as an unattached one, calling with
      no arguments and calling with any object argument that passes the method lookup
      give the same view. */
  lemma NoArgumentsMatchesObjectArgument(newTarget: Value, arg: JsObject, host: Host)
    requires host.getMethod(Object(arg), Replace).Ok?
    ensures Constructor(newTarget, [], host) == Constructor(newTarget, [Object(arg)], host)
  {
  }

  /** A concrete call: `new Int8Array(5)` with an ordinary new target whose "prototype" is
      an object yields five zero bytes viewed from offset 0. */
  lemma LengthFiveView(target: JsObject, proto: JsObject, typedArrayPrototype: JsObject)
    ensures var host := Host(o => Ok(Object(proto)), (v, s) => Ok(Undefined), v => Ok(5), typedArrayPrototype);
            var r := Constructor(Object(target), [Value.Number(0x4014_0000_0000_0000)], host);
            && r.Ok?
            && r.value.prototype == proto
            && r.value.arrayLength == 5 && r.value.byteLength == 5 && r.value.byteOffset == 0
            && r.value.viewedArrayBuffer.inner == [0, 0, 0, 0, 0]
  {
  }

  /** The @@replace lookup is observable: for an ordinary object whose @@replace property
      is a non-callable value (GetMethod throws a TypeError) and which has no @@iterator,
      the constructor as written throws, while the intended one returns a view. */
  lemma ReplaceLookupDiscrepancy(target: JsObject, proto: JsObject, typedArrayPrototype: JsObject)
    ensures var host := Host(
              o => Ok(Object(proto)),
              (v, s) => if s == Replace then Err(TypeError("not a function")) else Ok(Undefined),
              v => Ok(0),
              typedArrayPrototype);
            var arg := Object(JsObject(0, Ordinary));
            && Constructor(Object(target), [arg], host).Err?
            && IntendedConstructor(Object(target), [arg], host).Ok?
  {
  }
}
