/** What the core reads of a browser `File` object. */
module BrowserFile {

  /**
   * `name`, the MIME `type` the browser reports (empty when unknown), and
   * `webkitRelativePath` (empty unless the file was picked or dropped as part
   * of a folder). The byte content is opaque to the core.
   */
  datatype File = File(name: string, mimeType: string, relativePath: string)
}
