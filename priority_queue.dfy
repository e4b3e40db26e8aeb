/** The `priority_queue` crate's `PriorityQueue<I, P>` as the engines use it: every item at most
    once, with its priority; `peek` and `pop` both take an item of greatest priority. The crate is
    a max-heap, so a queue keyed by `Reverse(p)` yields the item of LEAST `p` first; such a queue
    is given the reversed comparator. */
module PriorityQueues {

  type Queue<I, P> = map<I, P>

  /** `le` orders priorities totally (ties allowed). */
  ghost predicate TotalPreorder<P(!new)>(le: (P, P) -> bool)
  {
    && (forall a, b :: le(a, b) || le(b, a))
    && (forall a, b, c :: le(a, b) && le(b, c) ==> le(a, c))
  }

  /** `id` is an item `peek` may return, and so the one `pop` then removes: nothing outranks it. */
  predicate IsPeek<I, P>(q: Queue<I, P>, le: (P, P) -> bool, id: I)
  {
    id in q && forall j :: j in q ==> le(q[j], q[id])
  }

  /** A non-empty queue always has an item to peek at: `top` is one. */
  lemma {:induction false} PeekExists<I, P(!new)>(q: Queue<I, P>, le: (P, P) -> bool) returns (top: I)
    requires q != map[]
    requires TotalPreorder(le)
    ensures IsPeek(q, le, top)
    decreases |q|
  {
    var k :| k in q;
    var rest := q - {k};
    assert rest.Keys == q.Keys - {k};
    assert forall j :: j in q ==> j == k || (j in rest && rest[j] == q[j]);
    if rest == map[] {
      assert rest.Keys == {};
      top := k;
    } else {
      assert |rest.Keys| < |q.Keys|;
      var m := PeekExists(rest, le);
      if le(q[k], rest[m]) {
        top := m;
      } else {
        forall j | j in q ensures le(q[j], q[k]) {
          if j != k {
            assert le(q[j], rest[m]) && le(rest[m], q[k]);
          }
        }
        top := k;
      }
    }
  }

  /** All items a queue may yield first share one priority. */
  lemma PeeksTie<I, P>(q: Queue<I, P>, le: (P, P) -> bool, a: I, b: I)
    requires IsPeek(q, le, a) && IsPeek(q, le, b)
    ensures le(q[a], q[b]) && le(q[b], q[a])
  {
  }
}
