/** The record shape shared by the store, the upload route and the tracking route. */
module Types {

  /** Either a value or nothing: what `Array.prototype.find` gives back. */
  datatype Option<+T> = None | Some(value: T)

  /** One uploaded recording. `views` and `totalWatches` are counters, so `nat`;
      `completionRate` is an exact `real` standing for the stored JavaScript number,
      meant to be a percentage between 0 and 100. */
  datatype Video = Video(
    id: string,
    createdAt: string,
    views: nat,
    completionRate: real,
    totalWatches: nat,
    filename: string)

  /** The smaller and the larger of two reals. */
  function Min(a: real, b: real): real { if a <= b then a else b }
  function Max(a: real, b: real): real { if a <= b then b else a }
}
