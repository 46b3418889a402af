/** What `fs.readdirSync` gives back: every file of a folder, once each. */
module Directory {
  /** A listing names each file once, and only files that are there. */
  predicate Listeler<V>(names: seq<string>, files: map<string, V>)
  {
    && (forall n :: n in names ==> n in files)
    && (forall n :: n in files ==> n in names)
    && Tekil(names)
  }

  /** No name appears twice. */
  predicate Tekil(names: seq<string>)
  {
    forall i, j :: 0 <= i < j < |names| ==> names[i] != names[j]
  }
}
