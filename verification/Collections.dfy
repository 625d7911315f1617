// Helpers for iterating over hash maps and sets, whose order is not specified.
module Collections {

  // Some member of a nonempty set.
  method AnyMember<T(==)>(s: set<T>) returns (x: T)
    requires s != {}
    ensures x in s
  {
    x :| x in s;
  }

  // Some member of a nonempty set, and what is left without it.
  method TakeMember<T(==)>(s: set<T>) returns (x: T, rest: set<T>)
    requires s != {}
    ensures x in s && rest == s - {x}
    ensures |rest| < |s|
  {
    x :| x in s;
    rest := s - {x};
  }

  lemma SomeMember<T>(s: set<T>) returns (x: T)
    requires s != {}
    ensures x in s
  {
    x :| x in s;
  }

  // Bookkeeping for a loop that works through `keys`.
  lemma VisitedGrows<T>(keys: set<T>, todo: set<T>, x: T)
    requires todo <= keys && x in todo
    ensures keys - (todo - {x}) == keys - todo + {x}
    ensures x !in keys - todo
  {
  }

  lemma AllVisited<T>(keys: set<T>)
    ensures keys - {} == keys
    ensures keys - keys == {}
  {
  }
}
