/** An optional value: stands for a nullable pointer of the scorer (a trie cursor). */
module Options {
  datatype Option<+T> = None | Some(value: T)
}
