/** Small things that several modules need. */
module Basics {
  datatype Option<+T> = None | Some(value: T)

  function SetOf<T>(o: Option<T>): set<T> { if o.None? then {} else {o.value} }

  lemma SubsetSize<T>(a: set<T>, b: set<T>)
    requires a <= b
    ensures |a| <= |b|
  {
    if a != {} {
      var x :| x in a;
      SubsetSize(a - {x}, b - {x});
    }
  }
}
