/** What several parts need. */
module Common {

  datatype Option<+T> = None | Some(value: T)

  /** Everything in a list of queues, as often as it is there. */
  ghost function Union<T>(qs: seq<seq<T>>): multiset<T> {
    if qs == [] then multiset{} else multiset(qs[0]) + Union(qs[1..])
  }

  lemma {:induction false} UnionUpdate<T>(qs: seq<seq<T>>, w: nat, q: seq<T>)
    requires w < |qs|
    ensures multiset(qs[w]) <= Union(qs)
    ensures Union(qs[w := q]) == Union(qs) - multiset(qs[w]) + multiset(q)
  {
    if w == 0 {
      assert qs[w := q][1..] == qs[1..];
    } else {
      assert qs[w := q][1..] == qs[1..][w - 1 := q];
      UnionUpdate(qs[1..], w - 1, q);
    }
  }

  lemma {:induction false} UnionEmpty<T>(qs: seq<seq<T>>)
    requires forall w :: 0 <= w < |qs| ==> qs[w] == []
    ensures Union(qs) == multiset{}
  {
    if qs == [] {
    } else {
      UnionEmpty(qs[1..]);
    }
  }
}
