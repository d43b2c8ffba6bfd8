/**
  What the program observes of the machine and the network, given as data:
  which paths exist (and whether an existing file can be loaded as an image or
  presentation), which directories cannot be created, and the status an HTTP
  HEAD request to a URL returns (a URL absent from the map makes the request raise).
*/
module Host {

  datatype FileState = Loadable | Unloadable

  datatype Host = Host(files: map<string, FileState>, dirs: set<string>, uncreatableDirs: set<string>, headStatus: map<string, int>)

  /** `Path(path).exists()`. */
  predicate Exists(h: Host, path: string) {
    path in h.files || path in h.dirs
  }
}
