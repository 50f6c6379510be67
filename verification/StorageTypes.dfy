/** Types shared by the journal, the storage client and the uploader. */
module StorageTypes {

  import opened PartPlan

  newtype byte = x: int | 0 <= x < 256
  type Bytes = seq<byte>

  datatype Option<+T> = None | Some(value: T)

  /** One uploaded part: the etag is opaque. */
  datatype Part = Part(partNumber: int, size: u64, etag: string)
}
