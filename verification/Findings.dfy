/** One desired leaf value that does not match the device. */
module Findings {
  import opened Json

  /** have is Null when the key or the section is absent on the device. */
  datatype Finding = Finding(section: string, path: string, want: Json, have: Json)
}
