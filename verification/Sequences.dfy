module Sequences {
  // What left a sequence followed by what is in it stays the same while elements join at one end and
  // leave at the other.
  lemma Regroup<T>(gone: seq<T>, items: seq<T>, added: seq<T>, removed: seq<T>, items': seq<T>)
    requires items + added == removed + items'
    ensures (gone + items) + added == (gone + removed) + items'
  {
    assert (gone + items) + added == gone + (items + added);
    assert (gone + removed) + items' == gone + (removed + items');
  }
}
