/**
 * The global statistics of a fetch cycle: the `reduce` sums that add a
 * record's member or online count only when it is a number.
 */
module Aggregate {
  import opened Records

  function NumericValue(c: Count): nat {
    match c
    case Num(n) => n
    case Private => 0
  }

  /**
   * `items.reduce((sum, s) => typeof s.memberCount === 'number' ? sum + s.memberCount : sum, 0)`:
   * every live record's count is part of the total, and a list of
   * restricted records totals 0.
   */
  function MemberTotal(items: seq<ServerItem>): (r: nat)
    ensures forall i :: 0 <= i < |items| && items[i].Live? ==> items[i].stats.memberCount <= r
    ensures (forall i :: 0 <= i < |items| ==> items[i].Restricted?) ==> r == 0
  {
    if items == [] then 0
    else
      var init := items[..|items| - 1];
      assert forall i :: 0 <= i < |init| ==> init[i] == items[i];
      MemberTotal(init) + NumericValue(MemberCountOf(items[|items| - 1]))
  }

  /** The same reduce over `onlineCount`. */
  function OnlineTotal(items: seq<ServerItem>): (r: nat)
    ensures forall i :: 0 <= i < |items| && items[i].Live? ==> items[i].stats.onlineCount <= r
    ensures (forall i :: 0 <= i < |items| ==> items[i].Restricted?) ==> r == 0
  {
    if items == [] then 0
    else
      var init := items[..|items| - 1];
      assert forall i :: 0 <= i < |init| ==> init[i] == items[i];
      OnlineTotal(init) + NumericValue(OnlineCountOf(items[|items| - 1]))
  }

  /** The records that carry numeric counts. */
  function LiveOnly(items: seq<ServerItem>): (r: seq<ServerItem>)
    ensures forall x :: x in r ==> x.Live? && x in items
    ensures forall x :: x in items && x.Live? ==> x in r
  {
    if items == [] then []
    else (if items[0].Live? then [items[0]] else []) + LiveOnly(items[1..])
  }

  /** Every live record is kept as often as it occurs, and nothing else is. */
  lemma {:induction false} LiveOnlyMultiplicity(items: seq<ServerItem>, x: ServerItem)
    ensures multiset(LiveOnly(items))[x] == if x.Live? then multiset(items)[x] else 0
  {
    if items != [] {
      LiveOnlyMultiplicity(items[1..], x);
      assert items == [items[0]] + items[1..];
      assert multiset(items) == multiset([items[0]]) + multiset(items[1..]);
    }
  }

  /** Reference definitions: the fetched counts summed over the live records. */
  function SumMembers(lives: seq<ServerItem>): nat
    requires forall x :: x in lives ==> x.Live?
  {
    if lives == [] then 0 else lives[0].stats.memberCount + SumMembers(lives[1..])
  }

  function SumOnline(lives: seq<ServerItem>): nat
    requires forall x :: x in lives ==> x.Live?
  {
    if lives == [] then 0 else lives[0].stats.onlineCount + SumOnline(lives[1..])
  }

  lemma {:induction false} SumMembersAppend(a: seq<ServerItem>, b: seq<ServerItem>)
    requires forall x :: x in a + b ==> x.Live?
    ensures SumMembers(a + b) == SumMembers(a) + SumMembers(b)
    decreases |a|
  {
    if a == [] {
      assert a + b == b;
    } else {
      assert (a + b)[1..] == a[1..] + b;
      SumMembersAppend(a[1..], b);
    }
  }

  lemma {:induction false} SumOnlineAppend(a: seq<ServerItem>, b: seq<ServerItem>)
    requires forall x :: x in a + b ==> x.Live?
    ensures SumOnline(a + b) == SumOnline(a) + SumOnline(b)
    decreases |a|
  {
    if a == [] {
      assert a + b == b;
    } else {
      assert (a + b)[1..] == a[1..] + b;
      SumOnlineAppend(a[1..], b);
    }
  }

  lemma {:induction false} LiveOnlyAppend(a: seq<ServerItem>, b: seq<ServerItem>)
    ensures LiveOnly(a + b) == LiveOnly(a) + LiveOnly(b)
    decreases |a|
  {
    if a == [] {
      assert a + b == b;
    } else {
      assert (a + b)[1..] == a[1..] + b;
      LiveOnlyAppend(a[1..], b);
    }
  }

  /** Filtering an extended list: the new record is kept exactly when it is live. */
  lemma LiveOnlySnoc(items: seq<ServerItem>)
    requires items != []
    ensures var last := items[|items| - 1];
      LiveOnly(items) == LiveOnly(items[..|items| - 1]) + (if last.Live? then [last] else [])
  {
    var init, last := items[..|items| - 1], items[|items| - 1];
    LiveOnlyAppend(init, [last]);
    assert init + [last] == items;
    assert [last][1..] == [];
  }

  /**
   * The member total adds up exactly the member counts of the live
   * records; a restricted record's 'Private' count contributes nothing.
   */
  lemma {:induction false} MemberTotalCountsLiveRecordsOnly(items: seq<ServerItem>)
    ensures MemberTotal(items) == SumMembers(LiveOnly(items))
  {
    if items != [] {
      var init, last := items[..|items| - 1], items[|items| - 1];
      MemberTotalCountsLiveRecordsOnly(init);
      LiveOnlySnoc(items);
      SumMembersAppend(LiveOnly(init), if last.Live? then [last] else []);
    }
  }

  /** The same for the online total. */
  lemma {:induction false} OnlineTotalCountsLiveRecordsOnly(items: seq<ServerItem>)
    ensures OnlineTotal(items) == SumOnline(LiveOnly(items))
  {
    if items != [] {
      var init, last := items[..|items| - 1], items[|items| - 1];
      OnlineTotalCountsLiveRecordsOnly(init);
      LiveOnlySnoc(items);
      SumOnlineAppend(LiveOnly(init), if last.Live? then [last] else []);
    }
  }
}
