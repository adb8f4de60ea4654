/** C# multicast delegates, as far as the portal code relies on them: an
    event is an invocation list; `+=` appends a delegate, `-=` removes the last
    occurrence of it (and leaves the list alone when it is absent), and raising
    the event calls the handlers in list order until one of them throws. */
module Events {

  /** A delegate; two casts of the same method of the same target are equal,
      so a delegate is identified by the method it wraps. */
  datatype Delegate = Delegate(id: nat)

  /** `list += d`. */
  function Subscribe(list: seq<Delegate>, d: Delegate): (r: seq<Delegate>)
    ensures multiset(r) == multiset(list) + multiset{d}
    ensures |r| == |list| + 1 && r[..|list|] == list && r[|list|] == d
  {
    list + [d]
  }

  /** `list -= d`: the last occurrence of `d` is taken out; the order of
      the remaining delegates is kept. */
  function Unsubscribe(list: seq<Delegate>, d: Delegate): (r: seq<Delegate>)
    ensures multiset(r) == multiset(list) - multiset{d}
    ensures d !in list ==> r == list
    ensures d in list ==> |r| == |list| - 1
  {
    if list == [] then []
    else
      assert list == list[..|list| - 1] + [list[|list| - 1]];
      if list[|list| - 1] == d then list[..|list| - 1]
      else Unsubscribe(list[..|list| - 1], d) + [list[|list| - 1]]
  }

  /** When `d` is subscribed, `list -= d` takes out exactly the element at
      its last position `i` and keeps every other delegate, in order. */
  lemma {:induction false} UnsubscribeRemovesLast(list: seq<Delegate>, d: Delegate) returns (i: nat)
    requires d in list
    ensures i < |list| && list[i] == d && d !in list[i + 1..]
    ensures Unsubscribe(list, d) == list[..i] + list[i + 1..]
  {
    var n := |list| - 1;
    var init := list[..n];
    assert list == init + [list[n]];
    if list[n] == d {
      i := n;
      assert list[i + 1..] == [];
    } else {
      assert d in init;
      i := UnsubscribeRemovesLast(init, d);
      assert init[..i] == list[..i];
      assert list[i + 1..] == init[i + 1..] + [list[n]];
    }
  }

  /** Subscribing and then unsubscribing the same delegate restores the
      list exactly, whatever else it holds. */
  lemma SubscribeUnsubscribe(list: seq<Delegate>, d: Delegate)
    ensures Unsubscribe(Subscribe(list, d), d) == list
  {
    assert Subscribe(list, d)[..|list|] == list;
  }

  /** The outcome of raising an event: the handlers that were called, in
      order, and whether the call ended with an exception. */
  datatype Invocation = Invocation(called: seq<Delegate>, threw: bool)

  /** Raising an event whose handlers behave as `throws` says: each handler
      runs in list order, and the first one that throws ends the call. An
      empty list (`event?.Invoke` on a null event) calls nothing. The called
      handlers are a prefix of the list, all of it when nothing threw;
      `InvokeStopsAtFirstThrow` says where the prefix ends. */
  function Invoke(list: seq<Delegate>, throws: Delegate -> bool): (r: Invocation)
    ensures r.called <= list
    ensures !r.threw ==> r.called == list
  {
    if list == [] then Invocation([], false)
    else if throws(list[0]) then Invocation([list[0]], true)
    else
      var rest := Invoke(list[1..], throws);
      assert list == [list[0]] + list[1..];
      Invocation([list[0]] + rest.called, rest.threw)
  }

  /** The call ends with an exception exactly when some handler throws; it
      is then the last handler called that threw, and none before it. */
  lemma {:induction false} InvokeStopsAtFirstThrow(list: seq<Delegate>, throws: Delegate -> bool)
    ensures var r := Invoke(list, throws);
            && (r.threw <==> exists d :: d in list && throws(d))
            && (r.threw ==> r.called != [] && throws(r.called[|r.called| - 1]))
            && (forall i :: 0 <= i < |r.called| - 1 ==> !throws(r.called[i]))
  {
    if list != [] && !throws(list[0]) {
      InvokeStopsAtFirstThrow(list[1..], throws);
      var rest := Invoke(list[1..], throws);
      var r := Invoke(list, throws);
      assert r.called == [list[0]] + rest.called;
      assert forall d :: d in list <==> d == list[0] || d in list[1..];
      forall i | 0 <= i < |r.called| - 1
        ensures !throws(r.called[i])
      {
        if i > 0 {
          assert r.called[i] == rest.called[i - 1];
        }
      }
    }
  }

  /** Raising one event after another, stopping at the first exception, is
      the same as raising a single event over both lists. */
  lemma {:induction false} InvokeSequential(first: seq<Delegate>, second: seq<Delegate>, throws: Delegate -> bool)
    ensures var a := Invoke(first, throws);
            Invoke(first + second, throws)
              == if a.threw then a
                 else Invocation(first + Invoke(second, throws).called, Invoke(second, throws).threw)
  {
    if first == [] {
      assert first + second == second;
    } else {
      var whole := first + second;
      assert whole[0] == first[0];
      if !throws(first[0]) {
        assert whole[1..] == first[1..] + second;
        InvokeSequential(first[1..], second, throws);
      }
    }
  }
}
