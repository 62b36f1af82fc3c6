/** The eleven typed-array kinds and their element sizes (the Element Size column of
    Table 72 in section 23.2 of ECMA-262, 2021 edition). */
module TypedArrayNames {
  import opened JsValues

  datatype TypedArrayName =
    | Int8Array
    | Uint8Array
    | Uint8ClampedArray
    | Int16Array
    | Uint16Array
    | Int32Array
    | Uint32Array
    | BigInt64Array
    | BigUint64Array
    | Float32Array
    | Float64Array

  /** Every kind there is. */
  const AllNames: set<TypedArrayName> :=
    {Int8Array, Uint8Array, Uint8ClampedArray, Int16Array, Uint16Array, Int32Array,
     Uint32Array, BigInt64Array, BigUint64Array, Float32Array, Float64Array}

  /** Number of bytes one element of the given kind occupies. */
  function ElementSize(name: TypedArrayName): (size: nat)
    ensures size in {1, 2, 4, 8}
  {
    match name
    case Int8Array | Uint8Array | Uint8ClampedArray => 1
    case Int16Array | Uint16Array => 2
    case Int32Array | Uint32Array | Float32Array => 4
    case BigInt64Array | BigUint64Array | Float64Array => 8
  }

  /** The kinds of each element size, read in both directions. */
  lemma ElementSizeTable(name: TypedArrayName)
    ensures ElementSize(name) == 1 <==> name in {Int8Array, Uint8Array, Uint8ClampedArray}
    ensures ElementSize(name) == 2 <==> name in {Int16Array, Uint16Array}
    ensures ElementSize(name) == 4 <==> name in {Int32Array, Uint32Array, Float32Array}
    ensures ElementSize(name) == 8 <==> name in {BigInt64Array, BigUint64Array, Float64Array}
  {
  }

  /** Any length ToIndex can produce, times any element size, still fits in a `usize`:
      the unchecked multiplication that computes a byte length cannot wrap on that path. */
  lemma IndexByteLengthFits(name: TypedArrayName, length: Index)
    ensures ElementSize(name) * length <= USIZE_MAX
  {
  }
}
