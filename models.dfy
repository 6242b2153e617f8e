/** The domain entity stored in every table and cache entry. */
module Models {

  /** A point in time; `time.Time`'s calendar and zone details are not modelled. */
  type Instant = int

  /** `models.Promotion`: id, price (a `float64`, modelled as a real) and expiration date. */
  datatype Promotion = Promotion(id: string, price: real, expirationDate: Instant)
}
