/** Values shared by the task primitives and the build engine. */
module Common {

  /** One octet of file content. */
  newtype byte = x: int | 0 <= x < 256

  /** The content of a file or buffer. */
  type Bytes = seq<byte>

  /** A file-system path, as a plain string (no normalisation is modelled). */
  type Path = string

  datatype Option<+T> = None | Some(value: T)

  /** An artifact to be written into the output tree, with its optional source map. */
  datatype Binary = Binary(name: string, data: Bytes, sourceMap: Option<Bytes>)

  /** JavaScript truthiness of a string: only the empty string is falsy. */
  predicate Truthy(s: string)
  {
    s != ""
  }

  /** No element occurs twice. */
  predicate Distinct<T(==)>(s: seq<T>)
  {
    forall i, j :: 0 <= i < j < |s| ==> s[i] != s[j]
  }
}
