/** The invariants of whole objects and of long loops are stated under a trigger, so that they stay closed
    until a proof asks for one by name: `assert Inside(o);` makes the invariant of object o available from
    there on, `assert Round(k);` the loop invariant of round k, `assert Beside(o);` other closed facts about
    object o, `assert Apart(kind);` what an operation on one kind of component leaves alone. */
module Focus {

  ghost predicate Inside(o: object) {
    true
  }

  ghost predicate Beside(o: object) {
    true
  }

  ghost predicate Apart<T>(x: T) {
    true
  }

  ghost predicate Round(k: nat) {
    true
  }
}
