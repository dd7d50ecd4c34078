/** The shape of one rental-property record as the dashboard receives it from the
    properties endpoint, and the optional-value wrapper used for fields that the
    analytics endpoint may leave out. */
module Records {

  /** A value that may be missing (`undefined` or `null` in the JSON body). */
  datatype Option<+T> = None | Some(value: T)

  /** One row of the property table. `performanceScore` is a server-computed
      number that need not be whole, so it is a `real`. */
  datatype PropertyRecord = PropertyRecord(
    id: int,
    address: string,
    propertyType: string,
    rent: int,
    occupancy: int,
    performanceScore: real)

  /** JavaScript's `v || fallback` on an optional number: a missing value and a
      zero (both falsy) give the fallback, any other value is kept. */
  function OrElse<T(==)>(v: Option<T>, zero: T, fallback: T): (r: T)
    ensures v.Some? && v.value != zero ==> r == v.value
    ensures v == None || v == Some(zero) ==> r == fallback
  {
    if v.Some? && v.value != zero then v.value else fallback
  }
}
