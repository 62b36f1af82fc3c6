/** The engine-level values this core reads and produces: JavaScript values, object
    handles, thrown errors, machine-sized integers, and the collaborators (property
    get, method lookup, ToIndex) whose outcomes the core consumes but does not compute. */
module JsValues {
  import opened Results

  /** Rust's `usize`, taken as 64 bits wide. */
  const USIZE_MAX: nat := 0xFFFF_FFFF_FFFF_FFFF
  type usize = n: nat | n <= USIZE_MAX

  /** 2^53 - 1, the bound ECMAScript's ToIndex places on every index it returns. */
  const MAX_SAFE_INTEGER: nat := 0x1F_FFFF_FFFF_FFFF
  type Index = n: nat | n <= MAX_SAFE_INTEGER

  /** What kind of internal data an object carries: the `is_typed_array` and
      `is_array_buffer` queries look at nothing else. */
  datatype ObjectKind = Ordinary | IntegerIndexed | ArrayBuffer

  /** A `JsObject` handle. Identity is reduced to a number; the property table lives
      in the collaborators, not here. */
  datatype JsObject = JsObject(id: nat, kind: ObjectKind) {

    predicate IsTypedArray() {
      kind.IntegerIndexed?
    }

    predicate IsArrayBuffer() {
      kind.ArrayBuffer?
    }
  }

  /** The well-known symbols of ECMAScript (section 6.1.5.1 of ECMA-262). */
  datatype WellKnownSymbol =
    | AsyncIterator | HasInstance | IsConcatSpreadable | Iterator | Match | MatchAll
    | Replace | Search | Species | Split | ToPrimitive | ToStringTag | Unscopables

  /** A `JsValue`. Payloads of primitives are carried but never interpreted by this
      core; numbers keep their IEEE-754 bit pattern. */
  datatype Value =
    | Undefined
    | Null
    | Boolean(b: bool)
    | String(s: string)
    | Number(bits: bv64)
    | BigInt(i: int)
    | Symbol(sym: WellKnownSymbol)
    | Object(obj: JsObject)

  /** A thrown exception. Boa throws plain `JsValue`s; the model keeps the kind of the
      errors this core raises itself visible, and wraps whatever a collaborator throws. */
  datatype JsError =
    | TypeError(message: string)
    | RangeError(message: string)
    | Thrown(value: Value)

  type JsResult<T> = Result<T, JsError>

  /** The collaborators of the typed-array constructors, as oracles:
      - `getPrototype(o)`  is the outcome of `o.__get__("prototype", o)`;
      - `getMethod(v, s)`  is the outcome of `v.get_method(s)`;
      - `toIndex(v)`       is the outcome of `v.to_index()`;
      - `typedArrayPrototype` is the default prototype the constructor supplies
        (`typed_array_object().prototype()`). */
  datatype Host = Host(
    getPrototype: JsObject -> JsResult<Value>,
    getMethod: (Value, WellKnownSymbol) -> JsResult<Value>,
    toIndex: Value -> JsResult<Index>,
    typedArrayPrototype: JsObject)
}
