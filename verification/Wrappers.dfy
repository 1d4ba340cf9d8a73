module Wrappers {
  datatype Option<+T> = None | Some(value: T)

  lemma OneMoreDone<T>(all: set<T>, todo: set<T>, k: T)
    requires todo <= all && k in todo
    ensures all - (todo - {k}) == all - todo + {k}
  {
  }

  lemma Assoc<T>(a: seq<T>, b: seq<T>, c: seq<T>)
    ensures a + b + c == a + (b + c)
  {
  }
}
