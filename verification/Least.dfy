/** Visiting a finite set of integers in increasing order, which is how the
    translators walk a map after sorting its keys. */
module Least {
  ghost predicate IsLeast(todo: set<int>, least: int) {
    least in todo && forall o :: o in todo ==> least <= o
  }

  lemma Inhabited(todo: set<int>)
    ensures todo == {} || exists x :: x in todo
  {
    if forall x :: x !in todo {
      assert todo == {};
    }
  }

  lemma {:induction false} LeastExists(todo: set<int>)
    requires todo != {}
    ensures exists least :: IsLeast(todo, least)
    decreases |todo|
  {
    Inhabited(todo);
    var first: int :| first in todo;
    var rest := todo - {first};
    if rest == {} {
      assert todo == rest + {first};
      assert IsLeast(todo, first);
    } else {
      LeastExists(rest);
      var least :| IsLeast(rest, least);
      var winner := if first < least then first else least;
      forall o | o in todo ensures winner <= o {
        if o != first { assert o in rest; }
      }
      assert IsLeast(todo, winner);
    }
  }

  ghost function LeastOf(todo: set<int>): (least: int)
    requires todo != {}
    ensures IsLeast(todo, least)
  {
    LeastExists(todo);
    var least :| IsLeast(todo, least);
    least
  }

  lemma LeastIsUnique(todo: set<int>, a: int, b: int)
    requires IsLeast(todo, a) && IsLeast(todo, b)
    ensures a == b
  {
  }
}
