/**
 * Values shared by every component: the optional and failure wrappers, and
 * the PHP scalars that the bundle stores in configuration, query strings,
 * sessions and graph nodes.
 */
module Values {

  datatype Option<+T> = None | Some(value: T)

  /** A call that either returns a value or throws. */
  datatype Result<+T, +E> = Ok(value: T) | Err(error: E)

  /**
   * A PHP scalar. PHP's strict comparison `===` holds exactly when two
   * values have the same type and the same contents, which is Dafny's `==`
   * on this datatype: `Null === Null` holds, `Int(1) === Str("1")` does not.
   */
  datatype Value = Null | Bool(b: bool) | Int(i: int) | Str(s: string)

  /**
   * Reading an array slot or a bag entry that answers `null` when the key
   * is missing (`$config['k'] ?? null`, `$bag->get('k')`).
   */
  function Lookup(m: map<string, Value>, key: string): (v: Value)
    ensures key !in m ==> v == Null
    ensures v != Null ==> key in m && m[key] == v
  {
    if key in m then m[key] else Null
  }
}
