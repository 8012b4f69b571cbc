/** Option, Result and a fact about permutations, shared by the modules of the model. */
module Wrappers {

  datatype Option<+T> = None | Some(value: T)

  /** `Err` stands for an exception that leaves the modelled call. */
  datatype Result<+T, +E> = Ok(value: T) | Err(error: E)

  /** Sequences that are permutations of each other have the same elements. */
  lemma SameElements<T>(a: seq<T>, b: seq<T>)
    requires multiset(a) == multiset(b)
    ensures forall i :: 0 <= i < |a| ==> exists j :: 0 <= j < |b| && b[j] == a[i]
  {
    forall i | 0 <= i < |a| ensures exists j :: 0 <= j < |b| && b[j] == a[i] {
      assert a[i] in multiset(a);
      assert a[i] in multiset(b);
      assert a[i] in b;
    }
  }
}
