# Typed-array allocation in Boa, modelled in Dafny

This project models how Boa allocates typed arrays. It covers the eleven element kinds and
their sizes, and the integer-indexed exotic object record with its two constructors:
IntegerIndexedObjectCreate (unattached) and AllocateTypedArrayBuffer (attached to a fresh
zero-filled Data Block). It also covers CreateByteDataBlock, AllocateTypedArray with its
prototype resolution, the always-throwing `%TypedArray%` constructor, and the ordered
dispatch of the `Int8Array` constructor. The standard these follow is ECMA-262, 2021
edition: section 23.2.5.1 with Table 72, and sections 23.2.5.1.1, 23.2.5.1.6, 10.4.5.7
and 6.2.8.1.

Modules, leaf first:

- `Results`: `Result`, usable with `:-` in the way Rust uses `?`, and a plain `Option`.
- `JsValues`: JavaScript values, object handles, thrown errors, `usize` (64 bits), ToIndex's
  `Index` bound (2^53 − 1), and `Host`. `Host` holds the outcomes of the collaborators
  this core calls but does not implement: the "prototype" get, `get_method` and
  `to_index`. It also holds the default prototype the constructor supplies.
- `TypedArrayNames`: the `TypedArrayName` enumeration and `ElementSize`.
- `IntegerIndexed`: `ContentType`, `DataBlock`, `IntegerIndexedObject`, `New`,
  `AllocateTypedArrayBuffer` and `CreateByteDataBlock`.
- `TypedArray`: `GetPrototypeFromConstructor`, `AllocateTypedArray` and the `%TypedArray%`
  constructor.
- `Int8ArrayBuiltin`: the `Int8Array` constructor.

Collaborator calls are passed in as oracle results, not computed. Boa throws errors as
plain values. The model keeps the kind of each error it raises itself (`TypeError` with
the source's message) and carries whatever a collaborator throws unchanged.
`AllocateTypedArray` returns the object record itself. The conversion of that record into
a fresh `JsObject` handle (`obj.into()`) is not modelled.

Order of checks in the `Int8Array` constructor, as the code has it:

1. An undefined new target throws a TypeError.
2. With no arguments, the constructor allocates zero elements.
3. With an object argument, the prototype get comes first and the method lookup second.
4. With a primitive argument, ToIndex comes first and the prototype get second.

Lemmas state both orderings.

## Model

| member | source | states |
|---|---|---|
| TypedArrayNames.ElementSize | boa/src/builtins/typed_array/mod.rs:121-128 | every kind's element size is one of 1, 2, 4, 8 |
| TypedArrayNames.ElementSizeTable | boa/src/builtins/typed_array/mod.rs:121-128 | size 1 iff Int8/Uint8/Uint8Clamped, 2 iff Int16/Uint16, 4 iff Int32/Uint32/Float32, 8 iff BigInt64/BigUint64/Float64 |
| TypedArrayNames.IndexByteLengthFits | boa/src/builtins/typed_array/integer_indexed_object.rs:64-67 | for any length ToIndex can return (at most 2^53 − 1), element size × length fits in a 64-bit usize, so the unchecked product cannot wrap on that path |
| IntegerIndexed.ContentTypeOf | boa/src/builtins/typed_array/integer_indexed_object.rs:26-31 | the content type is BigInt exactly for BigInt64Array and BigUint64Array, Number otherwise |
| IntegerIndexed.ContentTypeCounts | boa/src/builtins/typed_array/integer_indexed_object.rs:53-58 | nine kinds hold numbers and two hold big integers |
| IntegerIndexed.BigIntKindsAreEightBytes | boa/src/builtins/typed_array/integer_indexed_object.rs:26-31 | a kind holds big integers iff its element size is 8 and it is not Float64Array |
| IntegerIndexed.ZeroBytes | boa/src/builtins/typed_array/integer_indexed_object.rs:118-120 | `vec![0u8; n]` has n bytes and all of them are zero |
| IntegerIndexed.CreateByteDataBlock | boa/src/builtins/typed_array/integer_indexed_object.rs:111-121 | never fails; the block has exactly `size` bytes, all zero |
| IntegerIndexed.ZeroBlockIsCreated | boa/src/builtins/typed_array/integer_indexed_object.rs:111-121 | every all-zero block is the one CreateByteDataBlock makes for its size, so a block is fully determined by its size |
| IntegerIndexed.New | boa/src/builtins/typed_array/integer_indexed_object.rs:25-45 | keeps the given prototype and name, derives the content type from the name, and leaves byte offset, byte length and array length zero over the empty default block |
| IntegerIndexed.AllocateTypedArrayBuffer | boa/src/builtins/typed_array/integer_indexed_object.rs:48-86 | never fails; keeps prototype and name; content type derived from the name; array length = length, byte offset 0, byte length = element size × length, and the block holds exactly byte-length zero bytes |
| IntegerIndexed.ArrayLengthFromByteLength | boa/src/builtins/typed_array/integer_indexed_object.rs:64-84 | a freshly allocated view's byte length is a whole number of elements, and dividing it by the element size gives back the array length |
| IntegerIndexed.EmptyAllocationIsNew | boa/src/builtins/typed_array/integer_indexed_object.rs:25-86 | allocating zero elements produces exactly the record `new` builds, so both constructors agree on prototype, name and content type |
| TypedArray.TypedArrayConstructor | boa/src/builtins/typed_array/mod.rs:43-50 | whatever the new target and arguments are, the result is a TypeError |
| TypedArray.GetPrototypeFromConstructor | boa/src/builtins/typed_array/mod.rs:73-82 | fails exactly when the new target is an object whose "prototype" get fails, and then with that error; an object "prototype" value is the result; a non-object new target or a non-object "prototype" value gives the default prototype |
| TypedArray.AllocateTypedArray | boa/src/builtins/typed_array/mod.rs:63-99 | fails exactly when prototype resolution fails, with the same error; otherwise the view has the resolved prototype, the given name and the matching content type; no length gives an unattached view and `Some(n)` a freshly allocated view of n elements |
| TypedArray.NewTargetPrototypeWins | boa/src/builtins/typed_array/mod.rs:74-82 | when the new target's "prototype" get yields an object, allocation succeeds with that object as the prototype, whatever the default is |
| TypedArray.AllocatedViewIsConsistent | boa/src/builtins/typed_array/mod.rs:87-95 | every allocated view has byte length = element size × array length, a block of exactly byte-length bytes, and byte length ÷ element size = array length |
| Int8ArrayBuiltin.Construct | boa/src/builtins/typed_array/int8_array.rs:40-128 | an undefined new target gives the TypeError before anything else; every result is an Int8Array view of numbers with the resolved prototype. No arguments give an empty attached view. A primitive argument propagates a ToIndex error, else the prototype error, else yields n zero bytes. An object argument propagates the prototype error, else (for an object that is neither a typed array nor a buffer) the method-lookup error, else yields the unattached view |
| Int8ArrayBuiltin.Constructor | boa/src/builtins/typed_array/int8_array.rs:86-109 | as written: on an ordinary object argument, once the prototype resolves, the call fails exactly when the @@replace method lookup fails, and with that lookup's error |
| Int8ArrayBuiltin.IntendedConstructor | boa/src/builtins/typed_array/int8_array.rs:90-92 | the code as written with @@iterator looked up in place of @@replace: on an ordinary object argument, once the prototype resolves, the call fails exactly when the @@iterator lookup fails, and with that lookup's error |
| Int8ArrayBuiltin.ToIndexFailsBeforePrototypeGet | boa/src/builtins/typed_array/int8_array.rs:110-127 | on a primitive argument, when ToIndex and the prototype get both fail, the ToIndex error is the one returned |
| Int8ArrayBuiltin.PrototypeGetFailsBeforeMethodLookup | boa/src/builtins/typed_array/int8_array.rs:71-92 | on an object argument, when the prototype get and the method lookup both fail, the prototype get's error is the one returned |
| Int8ArrayBuiltin.NoArgumentsMatchesObjectArgument | boa/src/builtins/typed_array/int8_array.rs:60-109 | a call with no arguments and a call with an object argument that passes the method lookup return the same view |
| Int8ArrayBuiltin.LengthFiveView | boa/src/builtins/typed_array/int8_array.rs:110-127 | `new Int8Array(5)` yields array length 5, byte length 5, byte offset 0 and five zero bytes, with the new target's prototype |
| Int8ArrayBuiltin.ReplaceLookupDiscrepancy | boa/src/builtins/typed_array/int8_array.rs:90-92 | for an ordinary object whose @@replace is not callable and which has no @@iterator, the constructor as written throws while the key-corrected one succeeds |

## Findings

| source | as written | input that shows it | evidently intended | confidence | as-written member | corrected member |
|---|---|---|---|---|---|---|
| boa/src/builtins/typed_array/int8_array.rs:92 | the object-argument path calls `get_method` with `WellKnownSymbols::replace()` | `new Int8Array({[Symbol.replace]: 1})`: GetMethod on a non-callable @@replace throws a TypeError, so the constructor throws | look up @@iterator, as the comment on line 90 and step 6.b.iv.2 of section 23.2.5.1 of ECMA-262 say; this object has no @@iterator, so the call returns a view | high; not executed | Int8ArrayBuiltin.ReplaceLookupDiscrepancy | Int8ArrayBuiltin.IntendedConstructor |

`Int8ArrayBuiltin.Constructor` is the code as written. `Int8ArrayBuiltin.IntendedConstructor`
is the same code with the @@iterator lookup; only the key is corrected. Both are instances of
`Int8ArrayBuiltin.Construct`, which takes the looked-up symbol as a parameter.

## Left out

- `Int8Array::init` and `TypedArray::init`: these only register the constructor and its
  attributes, and `Int8Array::init` ends in `todo!()`.
- InitializeTypedArrayFromTypedArray, InitializeTypedArrayFromArrayBuffer,
  InitializeTypedArrayFromList and InitializeTypedArrayFromArrayLike: the source has no
  code for them. So an object argument leaves the view unattached. There is no element
  copying, offset or alignment validation, detachment check, content-type comparison or
  iteration.
- The internals of `__get__`, `get_method`, `to_index` and `as_object`: they are oracle
  results in `Host`. `to_index`'s outcome is bounded by 2^53 − 1, as ToIndex promises.
- JsObject identity, garbage collection and the `Context`: objects are a number plus the
  kind of internal data they carry.
- The default prototype closure: it is evaluated at most once and has no observable
  effects here, so it is a value (`Host.typedArrayPrototype`).
- AllocateArrayBuffer and allocation failure: the source allocates a bare `Vec<u8>` with
  `vec![0u8; n]` and creates no ArrayBuffer object. When that allocation cannot be
  satisfied, Rust aborts the process. So `new Int8Array(2**50)` aborts in the source,
  while the model returns a view. Neither the abort nor the RangeError that ECMA-262
  prescribes is modelled.
- Float and BigInt element encodings: only kind names, sizes and content types matter
  here.
- IntegerIndexed.AllocateTypedArrayBuffer: requires element size × length to fit in a 64-bit `usize`. It
  does not model what the unchecked multiplication does on overflow (a panic in debug
  builds, wrap-around in release builds). `TypedArrayNames.IndexByteLengthFits` shows that
  no length ToIndex can return comes near that bound.
- Int8ArrayBuiltin.IntendedConstructor: corrects only the looked-up key. It is not the full
  ECMA-262 algorithm. There, IterableToList, InitializeTypedArrayFromList and
  InitializeTypedArrayFromArrayLike can also throw after the lookup. For example,
  `new Int8Array({ get length() { throw 1 } })` throws 1 under ECMA-262, but this member
  returns a view. Those steps have no code in the source.
- TypedArray.AllocateTypedArray: has the same requirement on `Some(length)`, for the same reason.
- Where the code departs from the algorithms of ECMA-262, the model follows the code:
  - a byte-length overflow is not turned into a RangeError;
  - the object-argument initialisation paths are absent;
  - the `Int8Array` constructor's default prototype is whatever
    `typed_array_object().prototype()` returns, taken here as a parameter.
