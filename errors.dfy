/** The library's error type and the wrappers its fallible operations return. */
module Errors {

  datatype Option<T> = None | Some(value: T)

  /** `PltError`, extended with the three layout errors the layout and figure
      code construct. `InvalidSubplotArea` carries the offending fractional
      area as its four bounds. */
  datatype PltError =
    | InvalidData(message: string)
    | InvalidIndex(index: nat, nrows: nat, ncols: nat)
    | BadTickPlacement(message: string)
    | BadTickLabels(message: string)
    | InvalidSubplotArea(xmin: real, xmax: real, ymin: real, ymax: real)
    | InvalidRow(row: nat, nrows: nat)
    | InvalidColumn(col: nat, ncols: nat)

  datatype Result<T> = Ok(value: T) | Err(error: PltError)

  /** `Result<(), PltError>`. */
  datatype Outcome = Pass | Fail(error: PltError)
}
