/** Values shared by every part of the mapper: optional values, results,
    bytes, and the errors the library returns. */
module Types {

  datatype Option<+T> = None | Some(value: T) {
    function GetOr(default: T): T {
      match this
      case Some(v) => v
      case None => default
    }
  }

  /** A Go `(value, error)` pair where exactly one side is meaningful. */
  datatype Result<+T> = Ok(value: T) | Err(error: Error)

  type byte = b: int | 0 <= b < 256

  /** One constructor per error the Go code creates; errors that come from
      the database driver, the file system or the template library are
      opaque and carried as `Driver`. */
  datatype Error =
    | EmptyKey                                   // "the map key must be not empty"
    | UnknownKey(key: string)                    // "can't match the map key: " + key
    | MissingRoot                                // no `sqlmap` element
    | MissingId(namespace: string)               // a `sql` element without an id
    | DuplicateId(namespace: string, key: string)
    | UnsupportedTemplateType(typ: string)       // only "default" templates exist
    | UnsupportedTemplateExecute
    | NotGotRecord                               // ERR_NOT_GOT_RECORD
    | MoreThanOneRecord                          // ERR_MORE_THAN_ONE_RECORD
    | NotPointer                                 // "must pass a pointer, not a value"
    | NotPointerToSlice                          // "the obj must a pointer to slice"
    | BadSliceItem                               // "the slice item must a struct or struct pointer"
    | NotPointerToStruct                         // "the param must a struct or struct pointer"
    | KindMismatch(expected: string, got: string) // "expected %s but got %s"
    | DestinationCount(columns: nat, targets: nat) // database/sql: wrong number of Scan destinations
    | Driver(cause: string)

  /** Go's `m[k]` on a map: the zero value when the key is absent. */
  function MapGet<K, V>(m: map<K, V>, k: K, zero: V): (v: V)
    ensures k in m ==> v == m[k]
    ensures k !in m ==> v == zero
  {
    if k in m then m[k] else zero
  }
}
