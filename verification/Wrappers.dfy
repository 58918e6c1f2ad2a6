/** Results, optional values and facts about collections shared by the other modules. */
module Wrappers {

  datatype Option<+T> = None | Some(value: T)

  /** The outcome of a call that the gateway may end with an exception. */
  datatype Result<+T> = Success(value: T) | Failure(error: Error)

  datatype Error =
    | UnexpectedLength   // "Unexpected: len(buffer)=..."
    | MalformedText      // a character outside the base64url alphabet
    | NotReady           // order action while the connection is not ready
    | Rejected           // the encoder refuses the request arguments

  /** A loop over a set moves one element at a time from those to do to those done. */
  lemma MoveOne<T>(todo: set<T>, done: set<T>, x: T)
    requires x in todo && todo !! done
    ensures (todo - {x}) + (done + {x}) == todo + done && (todo - {x}) !! (done + {x})
  {
  }

  lemma SameMultisetSameElements<T>(a: seq<T>, b: seq<T>)
    requires multiset(a) == multiset(b)
    ensures forall x :: x in a <==> x in b
  {
    assert forall x :: x in a <==> x in multiset(a);
    assert forall x :: x in b <==> x in multiset(b);
  }

  lemma LastOfConcat<T>(a: seq<T>, b: seq<T>)
    requires b != []
    ensures var init, last := b[..|b| - 1], [b[|b| - 1]];
            b == init + last && a + b == (a + init) + last
  {
  }
}
