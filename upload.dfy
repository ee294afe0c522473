/** The single piece of the upload route the store depends on: the shape of a new record. */
module Upload {
  import opened Types

  /** The record the upload route hands to `createVideo`: all statistics start at zero
      and the identifying fields are the ones the route generated. */
  function InitialRecord(id: string, createdAt: string, filename: string): (v: Video)
    ensures v.id == id && v.createdAt == createdAt && v.filename == filename
    ensures v.views == 0 && v.totalWatches == 0 && v.completionRate == 0.0
  {
    Video(id, createdAt, 0, 0.0, 0, filename)
  }
}
