/** The integer-indexed exotic object record (section 10.4.5 of ECMA-262), its two
    constructors, and the zero-filled Data Block it views (section 6.2.8.1). */
module IntegerIndexed {
  import opened Results
  import opened JsValues
  import opened TypedArrayNames

  /** Whether a view's elements are ordinary numbers or big integers. */
  datatype ContentType = Number | BigInt

  /** A fixed-size byte store. The `Default` block is the empty one. */
  datatype DataBlock = DataBlock(inner: seq<bv8>)

  /** The integer-indexed object: a prototype, a kind, its content type and the
      viewed block with its offset and lengths. */
  datatype IntegerIndexedObject = IntegerIndexedObject(
    prototype: JsObject,
    viewedArrayBuffer: DataBlock,
    typedArrayName: TypedArrayName,
    contentType: ContentType,
    byteOffset: usize,
    byteLength: usize,
    arrayLength: usize)

  /** The content type a kind's views carry: big integers for the two 64-bit
      big-integer kinds, numbers for the other nine. */
  function ContentTypeOf(name: TypedArrayName): (ct: ContentType)
    ensures ct == ContentType.BigInt <==> name in {BigInt64Array, BigUint64Array}
  {
    match name
    case BigInt64Array | BigUint64Array => ContentType.BigInt
    case _ => ContentType.Number
  }

  /** Nine kinds hold numbers, two hold big integers. */
  lemma ContentTypeCounts()
    ensures |set n | n in AllNames && ContentTypeOf(n) == ContentType.Number| == 9
    ensures |set n | n in AllNames && ContentTypeOf(n) == ContentType.BigInt| == 2
  {
    assert (set n | n in AllNames && ContentTypeOf(n) == ContentType.BigInt) == {BigInt64Array, BigUint64Array};
    assert (set n | n in AllNames && ContentTypeOf(n) == ContentType.Number)
      == AllNames - {BigInt64Array, BigUint64Array};
  }

  /** Big-integer kinds are exactly the 8-byte kinds that are not floating point. */
  lemma BigIntKindsAreEightBytes(name: TypedArrayName)
    ensures ContentTypeOf(name) == ContentType.BigInt <==> ElementSize(name) == 8 && name != Float64Array
  {
  }

  /** `n` zero bytes. */
  function ZeroBytes(n: nat): (bytes: seq<bv8>)
    ensures |bytes| == n
    ensures forall i :: 0 <= i < n ==> bytes[i] == 0
  {
    if n == 0 then [] else ZeroBytes(n - 1) + [0]
  }

  /** CreateByteDataBlock(size): a block of `size` bytes, all zero. Allocation is
      infallible in this code, so the result is never an error. */
  function CreateByteDataBlock(size: usize): (r: JsResult<DataBlock>)
    ensures r.Ok?
    ensures |r.value.inner| == size
    ensures forall i :: 0 <= i < size ==> r.value.inner[i] == 0
  {
    Ok(DataBlock(ZeroBytes(size)))
  }

  /** A block is fully determined by its size: every all-zero block is the one
      CreateByteDataBlock makes. */
  lemma ZeroBlockIsCreated(block: DataBlock)
    requires |block.inner| <= USIZE_MAX
    requires forall i :: 0 <= i < |block.inner| ==> block.inner[i] == 0
    ensures CreateByteDataBlock(|block.inner|) == Ok(block)
  {
    var created := CreateByteDataBlock(|block.inner|).value;
    assert created.inner == block.inner;
  }

  /** A view that holds no data: all length fields zero and the default (empty) block. */
  ghost predicate Unattached(o: IntegerIndexedObject) {
    && o.byteOffset == 0
    && o.byteLength == 0
    && o.arrayLength == 0
    && o.viewedArrayBuffer == DataBlock([])
  }

  /** A view over a freshly created block of `length` elements: the block is exactly
      `byteLength` zero bytes, `byteLength` is the element count times the element
      size, and the view starts at offset 0. */
  ghost predicate FreshlyAllocated(o: IntegerIndexedObject, length: nat) {
    && o.arrayLength == length
    && o.byteOffset == 0
    && o.byteLength == ElementSize(o.typedArrayName) * length
    && |o.viewedArrayBuffer.inner| == o.byteLength
    && forall i :: 0 <= i < |o.viewedArrayBuffer.inner| ==> o.viewedArrayBuffer.inner[i] == 0
  }

  /** The content type never disagrees with the kind. */
  ghost predicate ContentTypeMatches(o: IntegerIndexedObject) {
    o.contentType == ContentTypeOf(o.typedArrayName)
  }

  /** IntegerIndexedObjectCreate: an unattached view with the given prototype and kind. */
  function New(prototype: JsObject, name: TypedArrayName): (o: IntegerIndexedObject)
    ensures o.prototype == prototype && o.typedArrayName == name
    ensures ContentTypeMatches(o)
    ensures Unattached(o)
  {
    IntegerIndexedObject(
      prototype := prototype,
      viewedArrayBuffer := DataBlock([]),
      typedArrayName := name,
      contentType := ContentTypeOf(name),
      byteOffset := 0,
      byteLength := 0,
      arrayLength := 0)
  }

  /** AllocateTypedArrayBuffer: a view of `length` elements over a fresh zero-filled
      block of `ElementSize(name) * length` bytes. The product is computed unchecked,
      so the caller must keep it within `usize`. */
  function AllocateTypedArrayBuffer(prototype: JsObject, name: TypedArrayName, length: usize)
    : (r: JsResult<IntegerIndexedObject>)
    requires ElementSize(name) * length <= USIZE_MAX
    ensures r.Ok?
    ensures r.value.prototype == prototype && r.value.typedArrayName == name
    ensures ContentTypeMatches(r.value)
    ensures FreshlyAllocated(r.value, length)
  {
    var contentType := ContentTypeOf(name);
    var elementSize := ElementSize(name);
    var byteLength := elementSize * length;
    match CreateByteDataBlock(byteLength)
    case Err(e) => Err(e)
    case Ok(data) =>
      Ok(IntegerIndexedObject(
           prototype := prototype,
           typedArrayName := name,
           contentType := contentType,
           viewedArrayBuffer := data,
           byteLength := byteLength,
           byteOffset := 0,
           arrayLength := length))
  }

  /** A freshly allocated view's element count can be read back from its byte length:
      the byte length is a whole number of elements. */
  lemma ArrayLengthFromByteLength(o: IntegerIndexedObject, length: nat)
    requires FreshlyAllocated(o, length)
    ensures o.byteLength % ElementSize(o.typedArrayName) == 0
    ensures o.byteLength / ElementSize(o.typedArrayName) == o.arrayLength
  {
  }

  /** Allocating zero elements yields exactly the unattached view `New` builds: the
      two constructors agree on prototype, kind and content type, and at length zero
      on everything else too. */
  lemma EmptyAllocationIsNew(prototype: JsObject, name: TypedArrayName)
    ensures AllocateTypedArrayBuffer(prototype, name, 0) == Ok(New(prototype, name))
  {
  }
}
