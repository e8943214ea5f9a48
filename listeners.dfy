/** The change-listener registry: a list of listeners with list semantics
    (duplicates kept, removal of one occurrence), and the notifications a
    committed block change sends to it. */
module Listeners {
  import opened WorldTypes

  /** A registered listener, compared by identity. */
  type ListenerId = nat

  /** One call `onBlockChanged(pos, type, oldType)` made to `listener`. */
  datatype Notification = Notification(listener: ListenerId, pos: Pos, newType: Block, oldType: Block)

  /** The calls one block change makes: one per registry entry, in
      registry order. */
  function NotificationsFor(ls: seq<ListenerId>, p: Pos, newType: Block, oldType: Block): (ns: seq<Notification>)
    ensures |ns| == |ls|
    ensures forall i :: 0 <= i < |ls| ==> ns[i] == Notification(ls[i], p, newType, oldType)
  {
    if ls == [] then []
    else [Notification(ls[0], p, newType, oldType)] + NotificationsFor(ls[1..], p, newType, oldType)
  }

  /** Notifying one more listener at the end adds one call at the end. */
  lemma NotificationsForAppend(ls: seq<ListenerId>, l: ListenerId, p: Pos, newType: Block, oldType: Block)
    ensures NotificationsFor(ls + [l], p, newType, oldType)
         == NotificationsFor(ls, p, newType, oldType) + [Notification(l, p, newType, oldType)]
  {
  }

  /** The position of the first occurrence of l in ls. */
  function IndexOf(ls: seq<ListenerId>, l: ListenerId): (i: nat)
    requires l in ls
    ensures i < |ls| && ls[i] == l && l !in ls[..i]
  {
    if ls[0] == l then 0
    else
      var j := IndexOf(ls[1..], l);
      assert ls[..j + 1] == [ls[0]] + ls[1..][..j];
      j + 1
  }

  /** Removal of one occurrence, as a list removes an element by identity:
      one occurrence of l goes and nothing else, and a listener that is not
      registered leaves the list as it is. */
  function RemoveFirst(ls: seq<ListenerId>, l: ListenerId): (r: seq<ListenerId>)
    ensures l !in ls ==> r == ls
    ensures |r| == if l in ls then |ls| - 1 else |ls|
  {
    if ls == [] then []
    else
      assert ls == [ls[0]] + ls[1..];
      if ls[0] == l then ls[1..]
      else [ls[0]] + RemoveFirst(ls[1..], l)
  }

  /** Exactly one occurrence of l goes (none if there was none), and every
      other listener keeps its number of registrations. */
  lemma {:induction false} RemoveFirstCount(ls: seq<ListenerId>, l: ListenerId)
    ensures multiset(RemoveFirst(ls, l)) == multiset(ls) - multiset{l}
  {
    if ls != [] {
      assert ls == [ls[0]] + ls[1..];
      if ls[0] != l {
        RemoveFirstCount(ls[1..], l);
      }
    }
  }

  /** The occurrence that goes is the first one, and the listeners before
      and after it keep their order. */
  lemma {:induction false} RemoveFirstAt(ls: seq<ListenerId>, l: ListenerId)
    requires l in ls
    ensures RemoveFirst(ls, l) == ls[..IndexOf(ls, l)] + ls[IndexOf(ls, l) + 1..]
  {
    if ls[0] != l {
      RemoveFirstAt(ls[1..], l);
      var j := IndexOf(ls[1..], l);
      assert ls[..j + 1] == [ls[0]] + ls[1..][..j];
      assert ls[j + 2..] == ls[1..][j + 1..];
    }
  }

  /** Registering a listener twice and unregistering it once leaves it
      registered once more than before: the removal takes the first
      occurrence, so an earlier registration goes if there was one, and
      otherwise the first of the two new ones. */
  lemma {:induction false} RegisterTwiceUnregisterOnce(ls: seq<ListenerId>, l: ListenerId)
    ensures RemoveFirst(ls + [l] + [l], l) == if l in ls then RemoveFirst(ls, l) + [l, l] else ls + [l]
  {
    if ls == [] {
      assert ls + [l] + [l] == [l] + [l];
      RemoveFirstCons(l, [l], l);
    } else {
      var h, t := ls[0], ls[1..];
      assert ls == [h] + t;
      assert ls + [l] + [l] == [h] + (t + [l] + [l]);
      RemoveFirstCons(h, t + [l] + [l], l);
      RemoveFirstCons(h, t, l);
      if h != l {
        RegisterTwiceUnregisterOnce(t, l);
        var tail := RemoveFirst(t + [l] + [l], l);
        assert RemoveFirst(ls + [l] + [l], l) == [h] + tail;
        if l in t {
          assert l in ls;
          var rt := RemoveFirst(t, l);
          assert tail == rt + [l, l];
          assert RemoveFirst(ls, l) == [h] + rt;
          assert [h] + (rt + [l, l]) == [h] + rt + [l, l];
        } else {
          assert l !in ls;
          assert tail == t + [l];
          assert [h] + (t + [l]) == ls + [l];
        }
      } else {
        assert t + [l] + [l] == t + [l, l];
      }
    }
  }

  /** One step of the removal: the first element goes if it is the
      listener, and otherwise stays in front. */
  lemma RemoveFirstCons(h: ListenerId, t: seq<ListenerId>, l: ListenerId)
    ensures RemoveFirst([h] + t, l) == if h == l then t else [h] + RemoveFirst(t, l)
  {
  }

  /** A listener registered at most once receives no call from a change
      made after it was unregistered. */
  lemma UnregisteredGetsNoCalls(ls: seq<ListenerId>, l: ListenerId, p: Pos, newType: Block, oldType: Block)
    requires multiset(ls)[l] <= 1
    ensures forall n :: n in NotificationsFor(RemoveFirst(ls, l), p, newType, oldType) ==> n.listener != l
  {
    RemoveFirstCount(ls, l);
    assert l !in multiset(RemoveFirst(ls, l));
  }
}
