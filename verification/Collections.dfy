/** Sequences, sets and the one loop that several searches share. */
module Collections {

  function Elements<T>(s: seq<T>): set<T>
  {
    set x | x in s
  }

  predicate Distinct<T(==)>(s: seq<T>)
  {
    forall i, j :: 0 <= i < j < |s| ==> s[i] != s[j]
  }

  lemma FirstIsMember<T>(s: seq<T>)
    ensures s == [] || s[0] in s
  {
  }

  lemma NoMembers<T>(s: seq<T>)
    requires forall x :: x !in s
    ensures s == []
  {
    FirstIsMember(s);
  }

  lemma {:induction false} SubsetSize<T>(a: set<T>, b: set<T>)
    requires a <= b
    ensures |a| <= |b| && (|a| == |b| ==> a == b)
  {
    if a != {} {
      var x :| x in a;
      SubsetSize(a - {x}, b - {x});
      assert a == (a - {x}) + {x} && b == (b - {x}) + {x};
    } else if b != {} {
      var x :| x in b;
      assert |b| == |b - {x}| + 1;
    }
  }

  lemma {:induction false} DistinctSize<T>(s: seq<T>)
    requires Distinct(s)
    ensures |Elements(s)| == |s|
  {
    if s != [] {
      var n := |s| - 1;
      DistinctSize(s[..n]);
      assert s[n] !in s[..n];
      assert Elements(s) == Elements(s[..n]) + {s[n]};
    }
  }

  /** Put those of `more` that were not visited at the end of the queue or on top of the stack. */
  method PushUnvisited<T(==)>(more: seq<T>, visited: set<T>, queue: seq<T>) returns (visited': set<T>, queue': seq<T>)
    ensures visited' == visited + set u | u in more
    ensures forall u :: u in queue' <==> u in queue || (u in more && u !in visited)
    ensures
      (forall i, j :: 0 <= i < j < |queue| ==> queue[i] != queue[j]) && (forall q :: q in queue ==> q in visited) ==>
      forall i, j :: 0 <= i < j < |queue'| ==> queue'[i] != queue'[j]
    ensures visited' == visited ==> queue' == queue
  {
    visited', queue' := visited, queue;
    for i := 0 to |more|
      invariant visited' == visited + set u | u in more[..i]
      invariant forall u :: u in queue' <==> u in queue || (u in more[..i] && u !in visited)
      invariant Distinct(queue) && (forall q :: q in queue ==> q in visited) ==> Distinct(queue')
      invariant visited' == visited ==> queue' == queue
    {
      assert more[..i + 1] == more[..i] + [more[i]];
      if more[i] !in visited' {
        visited' := visited' + {more[i]};
        queue' := queue' + [more[i]];
      }
    }
    assert more[..|more|] == more;
  }
}
