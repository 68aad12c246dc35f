/** The JSON files the core reads and writes, as abstract stores. */
module Persistence {

  /** What reading a file gives: no file, text `JSON.parse` rejects, or a parsed value. */
  datatype Contents<T> = Missing | Unparsable | Parsed(value: T)

  /** One file on disk. `writable` is false when `writeFileSync` would throw. */
  class FileStore<T> {
    var contents: Contents<T>
    var writable: bool

    constructor (contents: Contents<T>, writable: bool)
      ensures this.contents == contents && this.writable == writable
    {
      this.contents := contents;
      this.writable := writable;
    }
  }
}
