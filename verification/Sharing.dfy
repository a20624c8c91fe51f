/** One window over the rows of many owners, against a window of the same size for each owner. */
module Sharing {
  import opened Wrappers
  import opened Seqs
  import opened Rows

  function Is<T>(owner: T -> int, a: int): T -> bool {
    x => owner(x) == a
  }

  /** Everything a window keeps of `s`; 0 stands for no limit. */
  function Kept<T>(s: seq<T>, offset: nat, limit: nat): seq<T> {
    Window(s, offset, if limit == 0 then None else Some(limit))
  }

  function Own<T>(s: seq<T>, owner: T -> int, a: int): seq<T> {
    Filter(s, Is(owner, a))
  }

  /** Every owner gets of the common window what a window of its own would give it. */
  ghost predicate Shared<T(!new)>(s: seq<T>, owner: T -> int, ids: seq<int>, offset: nat, limit: nat) {
    forall a | a in ids :: Own(Kept(s, offset, limit), owner, a) == Kept(Own(s, owner, a), offset, limit)
  }

  ghost predicate OneOwner<T(!new)>(s: seq<T>, owner: T -> int) {
    forall x, y | x in s && y in s :: owner(x) == owner(y)
  }

  function End(n: nat, offset: nat, limit: nat): nat {
    if limit != 0 && offset + limit < n then offset + limit else n
  }

  /** Without an offset, the limit is absent or not reached or all rows have one owner. With an offset, it skips
      everything; or one owner has all rows up to the end of the window and no other has more than are skipped. */
  ghost predicate Fair<T(!new)>(s: seq<T>, owner: T -> int, offset: nat, limit: nat) {
    if offset == 0 then limit == 0 || |s| <= limit || OneOwner(s, owner)
    else |s| <= offset || Led(s, owner, offset, limit)
  }

  ghost predicate Led<T(!new)>(s: seq<T>, owner: T -> int, offset: nat, limit: nat)
    requires 0 < offset < |s|
  {
    && OneOwner(s[..End(|s|, offset, limit)], owner)
    && forall a | a != owner(s[0]) :: |Own(s, owner, a)| <= offset
  }

  // ----- A fair window is shared

  lemma {:induction false} OwnAll<T(!new)>(s: seq<T>, owner: T -> int, a: int)
    requires OneOwner(s, owner)
    ensures Own(s, owner, a) == if s != [] && owner(s[0]) == a then s else []
  {
    assert s != [] ==> s[0] in s;
    if s != [] && owner(s[0]) == a {
      FilterAll(s, Is(owner, a));
    } else {
      FilterNone(s, Is(owner, a));
    }
  }

  /** The window between what it skips and what it cuts off. */
  lemma {:induction false} OwnParts<T(!new)>(s: seq<T>, owner: T -> int, a: int, offset: nat, limit: nat)
    requires offset < |s|
    ensures var end := End(|s|, offset, limit);
      && Kept(s, offset, limit) == s[offset..end]
      && Own(s, owner, a) == Own(s[..offset], owner, a) + Own(s[offset..end], owner, a) + Own(s[end..], owner, a)
      && Own(s, owner, a) == Own(s[..end], owner, a) + Own(s[end..], owner, a)
  {
    var end := End(|s|, offset, limit);
    assert s == s[..offset] + s[offset..end] + s[end..] && s == s[..end] + s[end..];
    FilterAppend(s[..offset] + s[offset..end], s[end..], Is(owner, a));
    FilterAppend(s[..offset], s[offset..end], Is(owner, a));
    FilterAppend(s[..end], s[end..], Is(owner, a));
  }

  lemma {:induction false} LedIsShared<T(!new)>(s: seq<T>, owner: T -> int, a: int, offset: nat, limit: nat)
    requires 0 < offset < |s| && Led(s, owner, offset, limit)
    ensures Own(Kept(s, offset, limit), owner, a) == Kept(Own(s, owner, a), offset, limit)
  {
    var end := End(|s|, offset, limit);
    var head, window := s[..end], s[offset..end];
    OwnParts(s, owner, a, offset, limit);
    assert forall x | x in window :: x in head;
    OwnAll(head, owner, a);
    OwnAll(window, owner, a);
    assert head[0] == s[0] && head[offset] == window[0] && head[0] in head && head[offset] in head;
    if owner(s[0]) == a {
      LeaderKeeps(head, Own(s[end..], owner, a), offset, limit, end < |s|);
      assert window == head[offset..];
    }
  }

  lemma {:induction false} LeaderKeeps<T>(head: seq<T>, rest: seq<T>, offset: nat, limit: nat, cut: bool)
    requires 0 < offset < |head| && (if cut then |head| == offset + limit && limit != 0 else rest == [] && (limit == 0 || |head| <= offset + limit))
    ensures Kept(head + rest, offset, limit) == head[offset..]
  {
    var own := head + rest;
    if cut {
      assert own[offset..offset + limit] == head[offset..];
      assert own[offset..][..limit] == own[offset..offset + limit];
    } else {
      assert own == head;
    }
  }

  lemma {:induction false} FairIsShared<T(!new)>(s: seq<T>, owner: T -> int, ids: seq<int>, offset: nat, limit: nat)
    requires Fair(s, owner, offset, limit)
    ensures Shared(s, owner, ids, offset, limit)
  {
    forall a | a in ids ensures Own(Kept(s, offset, limit), owner, a) == Kept(Own(s, owner, a), offset, limit) {
      FilterSize(s, Is(owner, a));
      if offset == 0 && limit != 0 && |s| > limit {
        OwnAll(s, owner, a);
        assert forall x | x in s[..limit] :: x in s;
        assert s[..limit][0] == s[0];
        OwnAll(s[..limit], owner, a);
      } else if 0 < offset < |s| {
        LedIsShared(s, owner, a, offset, limit);
      }
    }
  }

  // ----- A shared window is fair

  /** If a limit that is reached is shared, every row belongs to the owner of the first row cut off. */
  lemma {:induction false} SharedLimitForcesOneOwner<T(!new)>(s: seq<T>, owner: T -> int, ids: seq<int>, limit: nat, x: T)
    requires 0 < limit < |s| && x in s && (forall y | y in s :: owner(y) in ids)
    requires Shared(s, owner, ids, 0, limit)
    ensures owner(x) == owner(s[limit])
  {
    var head, rest := s[..limit], s[limit..];
    assert s == head + rest;
    var b, c := owner(s[limit]), owner(x);
    assert s[limit] in s && s[limit] in rest;
    FilterAppend(head, rest, Is(owner, b));
    FilterMember(rest, Is(owner, b), s[limit]);
    FilterSize(head, Is(owner, b));
    assert |Own(head, owner, b)| == limit;
    if c != b {
      FilterNone(head, Is(owner, c));
    }
    FilterMember(s, Is(owner, c), x);
  }

  lemma {:induction false} FilterDistinct<T>(s: seq<T>, p: T -> bool)
    requires Distinct(s)
    ensures Distinct(Filter(s, p))
  {
    if s != [] {
      var n := |s| - 1;
      FilterDistinct(s[..n], p);
      FilterMembers(s[..n], p);
      var front := Filter(s[..n], p);
      forall i | 0 <= i < |front| ensures front[i] != s[n] {
        assert front[i] in front;
        var k :| 0 <= k < n && s[..n][k] == front[i];
        assert s[k] != s[n];
      }
    }
  }

  /** A segment of a sequence that is what a window keeps of it starts at the window's offset, unless it is empty. */
  lemma {:induction false} SegmentStartsAtOffset<T>(own: seq<T>, skipped: nat, kept: nat, offset: nat, limit: nat)
    requires skipped + kept <= |own| && own[skipped..skipped + kept] == Kept(own, offset, limit)
    requires Distinct(own) || (limit == 0 && skipped + kept == |own|)
    ensures kept == 0 || skipped == offset
  {
    var segment := own[skipped..skipped + kept];
    if kept > 0 {
      assert segment[0] == own[skipped] == own[offset];
    }
  }

  /** What one owner has before, in and after the window. */
  lemma {:induction false} OwnSegment<T(!new)>(s: seq<T>, owner: T -> int, ids: seq<int>, offset: nat, limit: nat, a: int)
    requires 0 < offset < |s| && (limit == 0 || Distinct(s)) && a in ids
    requires Shared(s, owner, ids, offset, limit)
    ensures var kept := Own(s[offset..End(|s|, offset, limit)], owner, a);
      && (kept == [] || |Own(s[..offset], owner, a)| == offset)
      && (kept == [] ==> |Own(s, owner, a)| <= offset)
  {
    var end := End(|s|, offset, limit);
    var skipped, kept, own := Own(s[..offset], owner, a), Own(s[offset..end], owner, a), Own(s, owner, a);
    OwnParts(s, owner, a, offset, limit);
    assert own[|skipped|..|skipped| + |kept|] == kept == Kept(own, offset, limit);
    if limit == 0 {
      assert Own(s[end..], owner, a) == [];
    } else {
      FilterDistinct(s, Is(owner, a));
    }
    SegmentStartsAtOffset(own, |skipped|, |kept|, offset, limit);
  }

  /** The owner of the first row kept owns every row skipped. */
  lemma {:induction false} LeaderSkipsItsOwn<T(!new)>(s: seq<T>, owner: T -> int, ids: seq<int>, offset: nat, limit: nat)
    requires 0 < offset < |s| && (limit == 0 || Distinct(s)) && (forall y | y in s :: owner(y) in ids)
    requires Shared(s, owner, ids, offset, limit)
    ensures forall x | x in s[..offset] :: owner(x) == owner(s[offset])
  {
    var window := s[offset..End(|s|, offset, limit)];
    assert s[offset] in s && window[0] == s[offset] && window[0] in window;
    FilterMember(window, Is(owner, owner(s[offset])), s[offset]);
    OwnSegment(s, owner, ids, offset, limit, owner(s[offset]));
    FilterSize(s[..offset], Is(owner, owner(s[offset])));
  }

  /** No other owner has a row in the window, or more rows than are skipped. */
  lemma {:induction false} OthersAreShort<T(!new)>(s: seq<T>, owner: T -> int, ids: seq<int>, offset: nat, limit: nat, a: int)
    requires 0 < offset < |s| && (limit == 0 || Distinct(s)) && (forall y | y in s :: owner(y) in ids)
    requires Shared(s, owner, ids, offset, limit) && a != owner(s[offset])
    ensures Own(s[offset..End(|s|, offset, limit)], owner, a) == [] && |Own(s, owner, a)| <= offset
  {
    var window := s[offset..End(|s|, offset, limit)];
    LeaderSkipsItsOwn(s, owner, ids, offset, limit);
    FilterNone(s[..offset], Is(owner, a));
    if a in ids {
      OwnSegment(s, owner, ids, offset, limit, a);
    } else {
      assert forall x | x in window :: x in s;
      FilterNone(s, Is(owner, a));
      FilterNone(window, Is(owner, a));
    }
  }

  /** A common window gives every owner what a window of its own would, exactly when it is fair. Only for an offset
      together with a limit must the rows differ, as equal rows can stand in for one another. */
  lemma {:induction false} WindowIsShared<T(!new)>(s: seq<T>, owner: T -> int, ids: seq<int>, offset: nat, limit: nat)
    requires forall x | x in s :: owner(x) in ids
    ensures Fair(s, owner, offset, limit) ==> Shared(s, owner, ids, offset, limit)
    ensures offset == 0 || limit == 0 || Distinct(s) ==> (Shared(s, owner, ids, offset, limit) <==> Fair(s, owner, offset, limit))
  {
    if Fair(s, owner, offset, limit) {
      FairIsShared(s, owner, ids, offset, limit);
    }
    if Shared(s, owner, ids, offset, limit) && (offset == 0 || limit == 0 || Distinct(s)) {
      if offset == 0 && 0 < limit < |s| {
        forall x, y | x in s && y in s ensures owner(x) == owner(y) {
          SharedLimitForcesOneOwner(s, owner, ids, limit, x);
          SharedLimitForcesOneOwner(s, owner, ids, limit, y);
        }
      } else if 0 < offset < |s| {
        SharedIsLed(s, owner, ids, offset, limit);
      }
    }
  }

  lemma {:induction false} SharedIsLed<T(!new)>(s: seq<T>, owner: T -> int, ids: seq<int>, offset: nat, limit: nat)
    requires 0 < offset < |s| && (limit == 0 || Distinct(s)) && (forall y | y in s :: owner(y) in ids)
    requires Shared(s, owner, ids, offset, limit)
    ensures Led(s, owner, offset, limit)
  {
    var b, end := owner(s[offset]), End(|s|, offset, limit);
    LeaderSkipsItsOwn(s, owner, ids, offset, limit);
    forall x | x in s[..end] ensures owner(x) == b {
      assert s[..end] == s[..offset] + s[offset..end];
      if x in s[offset..end] && owner(x) != b {
        OthersAreShort(s, owner, ids, offset, limit, owner(x));
        FilterMember(s[offset..end], Is(owner, owner(x)), x);
      }
    }
    assert s[..offset][0] == s[0] && s[0] in s[..offset];
    forall a | a != owner(s[0]) ensures |Own(s, owner, a)| <= offset {
      OthersAreShort(s, owner, ids, offset, limit, a);
    }
  }
}
