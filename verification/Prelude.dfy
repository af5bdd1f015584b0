/** Types shared by every module of the model. */
module Prelude {

  datatype Option<+T> = None | Some(value: T)

  /** UUIDs: an opaque, totally ordered set of identifiers. */
  type Id = nat

  /** Instants and durations, in whole microseconds (the resolution of Python's datetime). */
  type Time = int

  function Min(a: int, b: int): int { if a <= b then a else b }

  /** A number above every identifier drawn so far. */
  lemma FreshExists(ids: set<Id>) returns (top: Id)
    ensures forall i | i in ids :: i < top
    decreases ids
  {
    if ids == {} {
      top := 0;
    } else {
      var i :| i in ids;
      var t := FreshExists(ids - {i});
      assert forall j | j in ids :: j == i || j in ids - {i};
      top := if i < t then t else i + 1;
    }
  }
}
