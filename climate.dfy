/**
 * The records that flow between the climate source, the bloom engine and the
 * request handlers. Dates are day ordinals (consecutive days differ by one).
 */
module Climate {

  /** One climate sample for a point: what `get_vegetation_index` returns. */
  datatype Sample = Sample(
    ndvi: real,
    evi: real,
    temperature: real,   // degrees Celsius
    precipitation: real, // millimetres
    date: int)

  /** One entry of a historical series: a date and its two vegetation indices. */
  datatype HistoryPoint = HistoryPoint(date: int, ndvi: real, evi: real)
}
