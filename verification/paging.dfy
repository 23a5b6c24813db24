/** The cursor loop every probe runs:

      while request is not None:
          response = request.execute()
          ...work on the page's items...
          if 'nextPageToken' in response: request = <next request>
          else: request = None

    The remote side of a listing is a value: the replies it gives to successive requests.
    The work done on one page is a `step` that folds the page's items into an accumulator. */
module Paging {
  import opened Common

  /** One list response: the items under the response's list key (None when the key is
      absent) and whether the response carries a `nextPageToken`. */
  datatype Reply<T> = Reply(items: Option<seq<T>>, nextPageToken: bool)

  /** What the service answers to the successive requests of one listing: the replies, in
      order, and the text of the exception raised by the first request after them. */
  datatype Listing<T> = Listing(replies: seq<Reply<T>>, error: string)

  /** The items of a reply; a reply without the list key contributes none. */
  function Items<T>(r: Reply<T>): seq<T> {
    r.items.GetOr([])
  }

  /** The work done on one page either lets the loop go on or raises an exception after
      having done part of its work (the accumulator then holds what was done). */
  datatype Step<A> = Continue(acc: A) | Abort(acc: A)

  /** The end of a walk: the accumulator, whether the loop ended normally (a reply without
      `nextPageToken`) rather than through an exception, and how many requests it issued. */
  datatype Walked<A> = Walked(acc: A, completed: bool, requests: nat)

  /** The walk from the `i`-th request on, with accumulator `acc`. */
  function WalkFrom<T, A>(replies: seq<Reply<T>>, i: nat, acc: A, step: (A, seq<T>) -> Step<A>): Walked<A>
    decreases |replies| - i
  {
    if i >= |replies| then Walked(acc, false, i + 1)
    else
      match step(acc, Items(replies[i]))
      case Abort(a) => Walked(a, false, i + 1)
      case Continue(a) =>
        if replies[i].nextPageToken then WalkFrom(replies, i + 1, a, step)
        else Walked(a, true, i + 1)
  }

  function Walk<T, A>(listing: Listing<T>, init: A, step: (A, seq<T>) -> Step<A>): Walked<A> {
    WalkFrom(listing.replies, 0, init, step)
  }

  /** The `while request is not None` loop. */
  method Drain<T, A>(listing: Listing<T>, init: A, step: (A, seq<T>) -> Step<A>) returns (w: Walked<A>)
    ensures w == Walk(listing, init, step)
  {
    var replies := listing.replies;
    var acc := init;
    var requests := 0;
    var more := true;
    while more
      invariant requests <= |replies|
      invariant more ==> WalkFrom(replies, requests, acc, step) == Walk(listing, init, step)
      invariant !more ==> Walked(acc, true, requests) == Walk(listing, init, step)
      decreases |replies| - requests
    {
      if requests >= |replies| {
        // request.execute() raises
        return Walked(acc, false, requests + 1);
      }
      var response := replies[requests];
      requests := requests + 1;
      match step(acc, Items(response)) {
        case Abort(a) =>
          return Walked(a, false, requests);
        case Continue(a) =>
          acc := a;
      }
      more := response.nextPageToken;
    }
    w := Walked(acc, true, requests);
  }

  // ---------------------------------------------------------------------------------------
  // Requests: one per page, stopping at the first reply without nextPageToken

  ghost predicate NeverAborts<T(!new), A(!new)>(step: (A, seq<T>) -> Step<A>) {
    forall a, xs :: step(a, xs).Continue?
  }

  lemma {:induction false} WalkFromStops<T(!new), A(!new)>(rs: seq<Reply<T>>, i: nat, a: A, step: (A, seq<T>) -> Step<A>)
    requires NeverAborts(step) && i <= |rs|
    ensures var w := WalkFrom(rs, i, a, step);
      && i + 1 <= w.requests <= |rs| + 1
      && (forall j :: i <= j < w.requests - 1 ==> rs[j].nextPageToken)
      && (w.completed ==> w.requests <= |rs| && !rs[w.requests - 1].nextPageToken)
      && (w.completed <==> exists k :: i <= k < |rs| && !rs[k].nextPageToken)
      && (!w.completed ==> w.requests == |rs| + 1)
    decreases |rs| - i
  {
    if i < |rs| {
      assert step(a, Items(rs[i])).Continue?;
      if rs[i].nextPageToken {
        WalkFromStops(rs, i + 1, step(a, Items(rs[i])).acc, step);
      }
    }
  }

  /** A walk issues one request per page and stops right after the first reply without
      `nextPageToken`; when every reply carries one, the request after the last reply raises. */
  lemma WalkStopsAtLastPage<T(!new), A(!new)>(listing: Listing<T>, init: A, step: (A, seq<T>) -> Step<A>)
    requires NeverAborts(step)
    ensures var w := Walk(listing, init, step); var rs := listing.replies;
      && 1 <= w.requests <= |rs| + 1
      && (forall j :: 0 <= j < w.requests - 1 ==> rs[j].nextPageToken)
      && (w.completed ==> w.requests <= |rs| && !rs[w.requests - 1].nextPageToken)
      && (w.completed <==> exists k :: 0 <= k < |rs| && !rs[k].nextPageToken)
      && (!w.completed ==> w.requests == |rs| + 1)
  {
    WalkFromStops(listing.replies, 0, init, step);
  }

  // ---------------------------------------------------------------------------------------
  // The accumulator: the per-page steps amount to one pass over all items received

  /** The items of replies `i` to `j - 1`, in order. */
  function Between<T>(rs: seq<Reply<T>>, i: nat, j: nat): seq<T>
    requires i <= j <= |rs|
    decreases j - i
  {
    if i == j then [] else Items(rs[i]) + Between(rs, i + 1, j)
  }

  /** How many replies the walk `w` over `listing` received. */
  function Consumed<T, A>(listing: Listing<T>, w: Walked<A>): nat {
    Min(w.requests, |listing.replies|)
  }

  /** The items of every reply the walk `w` received. */
  function Received<T, A>(listing: Listing<T>, w: Walked<A>): seq<T> {
    Between(listing.replies, 0, Consumed(listing, w))
  }

  function Then<T, A>(s: Step<A>, step: (A, seq<T>) -> Step<A>, ys: seq<T>): Step<A> {
    match s
    case Abort(b) => Abort(b)
    case Continue(b) => step(b, ys)
  }

  /** `step` does on a concatenation what it does on the parts one after the other, and
      nothing on no items: it is a pass over the items, whatever the page boundaries. */
  ghost predicate Compositional<T(!new), A(!new)>(step: (A, seq<T>) -> Step<A>) {
    && (forall a :: step(a, []) == Continue(a))
    && (forall a, xs, ys :: step(a, xs + ys) == Then(step(a, xs), step, ys))
  }

  lemma {:induction false} WalkFromScans<T(!new), A(!new)>(rs: seq<Reply<T>>, i: nat, a: A, step: (A, seq<T>) -> Step<A>)
    requires Compositional(step) && i <= |rs|
    ensures var w := WalkFrom(rs, i, a, step); var n := Min(w.requests, |rs|);
      && i <= n
      && step(a, Between(rs, i, n)).acc == w.acc
      && (step(a, Between(rs, i, n)).Abort? <==> !w.completed && w.requests <= |rs|)
    decreases |rs| - i
  {
    if i < |rs| {
      var page := Items(rs[i]);
      assert Between(rs, i, i + 1) == page by {
        assert Between(rs, i + 1, i + 1) == [];
        assert page + [] == page;
      }
      var s := step(a, page);
      if s.Continue? && rs[i].nextPageToken {
        var b := s.acc;
        WalkFromScans(rs, i + 1, b, step);
        var n := Min(WalkFrom(rs, i + 1, b, step).requests, |rs|);
        var rest := Between(rs, i + 1, n);
        assert Between(rs, i, n) == page + rest;
        assert step(a, page + rest) == Then(s, step, rest);
      } else if s.Continue? {
        assert step(a, page + []) == Then(s, step, []);
      }
    } else {
      assert step(a, []) == Continue(a);
    }
  }

  /** For a step that is a pass over items, the accumulator the walk ends with is that pass
      over every item received, and the walk raised from a step exactly when the pass did. */
  lemma WalkScans<T(!new), A(!new)>(listing: Listing<T>, init: A, step: (A, seq<T>) -> Step<A>)
    requires Compositional(step)
    ensures var w := Walk(listing, init, step);
      && step(init, Received(listing, w)).acc == w.acc
      && (step(init, Received(listing, w)).Abort? <==> !w.completed && w.requests <= |listing.replies|)
  {
    WalkFromScans(listing.replies, 0, init, step);
  }

  // ---------------------------------------------------------------------------------------
  // Counting items: `count += len(response[key])`

  /** The page step of the probes that only count: add the number of items on the page. */
  function CountItems<T>(): (nat, seq<T>) -> Step<nat> {
    (a: nat, xs: seq<T>) => Continue(a + |xs|)
  }

  /** The sum of the page sizes; a reply without the list key counts 0. */
  function PageSizes<T>(rs: seq<Reply<T>>): nat {
    if |rs| == 0 then 0 else |Items(rs[0])| + PageSizes(rs[1..])
  }

  lemma {:induction false} BetweenSize<T>(rs: seq<Reply<T>>, i: nat, j: nat)
    requires i <= j <= |rs|
    ensures |Between(rs, i, j)| == PageSizes(rs[i..j])
    decreases j - i
  {
    if i < j {
      BetweenSize(rs, i + 1, j);
      assert rs[i..j][1..] == rs[i + 1..j];
    }
  }

  lemma CountingComposes<T(!new)>()
    ensures Compositional(CountItems<T>()) && NeverAborts(CountItems<T>())
  {
    var step := CountItems<T>();
    forall a, xs, ys ensures step(a, xs + ys) == Then(step(a, xs), step, ys) {
      assert |xs + ys| == |xs| + |ys|;
    }
  }

  /** Counting a listing ends with the sum of the sizes of the pages it received, each page
      without the list key counting 0; it completes exactly when some reply lacks
      `nextPageToken`, and then it has received the pages up to the first such reply. */
  lemma CountedItems<T(!new)>(listing: Listing<T>, init: nat)
    ensures var w := Walk(listing, init, CountItems());
      && w.acc == init + PageSizes(listing.replies[..Consumed(listing, w)])
      && (w.completed <==> exists k :: 0 <= k < |listing.replies| && !listing.replies[k].nextPageToken)
      && (w.completed ==> Consumed(listing, w) == w.requests)
  {
    var step := CountItems<T>();
    CountingComposes<T>();
    WalkScans(listing, init, step);
    var w := Walk(listing, init, step);
    BetweenSize(listing.replies, 0, Consumed(listing, w));
    WalkStopsAtLastPage(listing, init, step);
  }

  /** Three pages of 2, 2 and 1 items, the last without `nextPageToken`: the walk issues
      three requests and counts five items. */
  lemma ThreePages()
    ensures Walk(Listing([Reply(Some([1, 2]), true), Reply(Some([3, 4]), true), Reply(Some([5]), false)], "request failed"), 0, CountItems()) == Walked(5, true, 3)
  {
    var rs := [Reply(Some([1, 2]), true), Reply(Some([3, 4]), true), Reply(Some([5]), false)];
    var step := CountItems<int>();
    assert WalkFrom(rs, 2, 4, step) == Walked(5, true, 3);
    assert WalkFrom(rs, 1, 2, step) == Walked(5, true, 3);
  }

  // ---------------------------------------------------------------------------------------
  // Per-item work: `for item in response[key]: ...`

  /** The work done on a page, item by item, stopping at the first item that raises. */
  function Fold<T, A>(a: A, xs: seq<T>, f: (A, T) -> Step<A>): Step<A>
    decreases |xs|
  {
    if |xs| == 0 then Continue(a)
    else
      match f(a, xs[0])
      case Abort(b) => Abort(b)
      case Continue(b) => Fold(b, xs[1..], f)
  }

  /** The page step that works item by item. */
  function Each<T, A>(f: (A, T) -> Step<A>): (A, seq<T>) -> Step<A> {
    (a: A, xs: seq<T>) => Fold(a, xs, f)
  }

  lemma {:induction false} FoldAppend<T, A>(a: A, xs: seq<T>, ys: seq<T>, f: (A, T) -> Step<A>)
    ensures Fold(a, xs + ys, f) == Then(Fold(a, xs, f), Each(f), ys)
    decreases |xs|
  {
    if |xs| == 0 {
      assert xs + ys == ys;
    } else {
      assert (xs + ys)[1..] == xs[1..] + ys;
      match f(a, xs[0])
      case Abort(b) =>
      case Continue(b) => FoldAppend(b, xs[1..], ys, f);
    }
  }

  /** Item-by-item work does not depend on where the pages break. */
  lemma EachCompositional<T(!new), A(!new)>(f: (A, T) -> Step<A>)
    ensures Compositional(Each(f))
  {
    forall a, xs, ys ensures Each(f)(a, xs + ys) == Then(Each(f)(a, xs), Each(f), ys) {
      FoldAppend(a, xs, ys, f);
    }
  }

  /** Walking a listing with item-by-item work is that work over every item received, in
      order; the walk raised from an item exactly when the work over those items did. */
  lemma WalkFolds<T(!new), A(!new)>(listing: Listing<T>, init: A, f: (A, T) -> Step<A>)
    ensures var w := Walk(listing, init, Each(f));
      && Fold(init, Received(listing, w), f).acc == w.acc
      && (Fold(init, Received(listing, w), f).Abort? <==> !w.completed && w.requests <= |listing.replies|)
  {
    EachCompositional(f);
    WalkScans(listing, init, Each(f));
  }

  /** `inv` holds after every item whenever it held before. */
  ghost predicate Keeps<T(!new), A(!new)>(f: (A, T) -> Step<A>, inv: A -> bool) {
    forall a, x :: inv(a) ==> inv(f(a, x).acc)
  }

  lemma {:induction false} FoldKeeps<T(!new), A(!new)>(a: A, xs: seq<T>, f: (A, T) -> Step<A>, inv: A -> bool)
    requires Keeps(f, inv) && inv(a)
    ensures inv(Fold(a, xs, f).acc)
    decreases |xs|
  {
    if |xs| > 0 {
      assert inv(f(a, xs[0]).acc);
      if f(a, xs[0]).Continue? {
        FoldKeeps(f(a, xs[0]).acc, xs[1..], f, inv);
      }
    }
  }

  /** An invariant of the item work holds of whatever a walk ends with. */
  lemma WalkKeeps<T(!new), A(!new)>(listing: Listing<T>, init: A, f: (A, T) -> Step<A>, inv: A -> bool)
    requires Keeps(f, inv) && inv(init)
    ensures inv(Walk(listing, init, Each(f)).acc)
  {
    WalkFolds(listing, init, f);
    FoldKeeps(init, Received(listing, Walk(listing, init, Each(f))), f, inv);
  }

  // ---------------------------------------------------------------------------------------
  // Counting loops: `count += <what the item is worth>` for each item

  /** What the items are worth together. */
  function Sum<T>(xs: seq<T>, g: T -> nat): nat {
    if |xs| == 0 then 0 else g(xs[0]) + Sum(xs[1..], g)
  }

  /** The item step that adds what the item is worth and never raises. */
  function Adding<T>(g: T -> nat): (nat, T) -> Step<nat> {
    (a: nat, x: T) => Continue(a + g(x))
  }

  lemma {:induction false} FoldSum<T>(a: nat, xs: seq<T>, g: T -> nat)
    ensures Fold(a, xs, Adding(g)) == Continue(a + Sum(xs, g))
    decreases |xs|
  {
    if |xs| > 0 {
      FoldSum(a + g(xs[0]), xs[1..], g);
    }
  }

  lemma {:induction false} SumAppend<T>(xs: seq<T>, ys: seq<T>, g: T -> nat)
    ensures Sum(xs + ys, g) == Sum(xs, g) + Sum(ys, g)
    decreases |xs|
  {
    if |xs| == 0 {
      assert xs + ys == ys;
    } else {
      assert (xs + ys)[1..] == xs[1..] + ys;
      SumAppend(xs[1..], ys, g);
    }
  }

  /** Items each worth at most `m` are worth at most `m` per item together. */
  lemma {:induction false} SumBound<T>(xs: seq<T>, g: T -> nat, m: nat)
    requires forall i :: 0 <= i < |xs| ==> g(xs[i]) <= m
    ensures Sum(xs, g) <= m * |xs|
    decreases |xs|
  {
    if |xs| > 0 {
      assert g(xs[0]) <= m;
      assert forall i :: 0 <= i < |xs[1..]| ==> xs[1..][i] == xs[i + 1];
      SumBound(xs[1..], g, m);
    }
  }

  /** A counting walk ends with what every item received is worth; it completes exactly when
      some reply lacks `nextPageToken`, and then it received the replies up to that one. */
  lemma WalkSums<T(!new)>(listing: Listing<T>, g: T -> nat)
    ensures var w := Walk(listing, 0, Each(Adding(g)));
      && w.acc == Sum(Received(listing, w), g)
      && (w.completed <==> exists k :: 0 <= k < |listing.replies| && !listing.replies[k].nextPageToken)
      && (w.completed ==> Consumed(listing, w) == w.requests)
  {
    var step := Each(Adding(g));
    assert NeverAborts(step) by {
      forall a, xs ensures step(a, xs).Continue? {
        FoldSum(a, xs, g);
      }
    }
    WalkStopsAtLastPage(listing, 0, step);
    WalkFolds(listing, 0, Adding(g));
    FoldSum(0, Received(listing, Walk(listing, 0, step)), g);
  }
}
