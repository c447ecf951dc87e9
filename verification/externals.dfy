/** Outcomes of the browser and scanning-library calls that the core only
    observes: a chosen image file and what html5-qrcode reports when asked
    to decode it. */
module Externals {
  import opened Util

  /** A chosen image file: its media type (`file.type`) and the data URL a
      FileReader produces for it, None when reading fails. */
  datatype File = File(mimeType: string, dataUrl: Option<string>)

  /** The settled outcome of `Html5Qrcode.scanFile`: a decoded code, or a
      rejection (no code found, unreadable image). */
  datatype FileScan = Decoded(text: string) | NoBarcode
}
