/** One file under an attempt to change it. */
module Files {
  import opened Options

  /** `Unsynced` is an error reported after the file was already replaced. */
  datatype Reply = Fine | Refused | Unsynced

  /** A file after an attempt to give it new content, or to remove it. */
  function Put<T>(was: Option<T>, wanted: Option<T>, reply: Reply): Option<T> {
    if reply.Refused? then was else wanted
  }
}
