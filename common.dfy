/** Small value types shared by the asset modules. */
module Common {

  /** A nullable column or form value: `None` is the database's NULL. */
  datatype Option<+T> = None | Some(value: T)

  /** Python truthiness of a nullable integer id: NULL and 0 are both false. */
  predicate IsSet(o: Option<int>)
  {
    o.Some? && o.value != 0
  }

  /** `int(x or 0)`: NULL (and 0) read as 0. */
  function OrZero(o: Option<int>): int
  {
    if o.Some? then o.value else 0
  }
}
