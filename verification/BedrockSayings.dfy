/** What captured blocks say, read in the order they were shown and in the order they opened. */
module BedrockSayings {
  import opened Wrappers
  import opened Json
  import opened Sequences
  import opened BedrockReplay

  /** Captured blocks by their place in the message. */
  type Natives = map<U64, Json>

  function Saying(natives: Natives): U64 -> Option<Semantic> {
    o => if o in natives then NativeSemantic(natives[o]) else None
  }

  predicate Speaks(natives: Natives, o: U64) {
    Saying(natives)(o).Some?
  }

  /** What the blocks at some places say, in the order given. */
  function Sayings(natives: Natives, orders: seq<U64>): seq<Semantic> {
    FilterMap(orders, Saying(natives))
  }

  function Places(shown: seq<U64>): map<U64, U64> {
    map o | o in shown :: o
  }

  /** The places below a limit in the order the blocks opened. */
  function OpenBelow(shown: seq<U64>, limit: nat): seq<U64> {
    Ascending<U64>(Places(shown), limit)
  }

  /** The places of shown blocks in the order the blocks opened. */
  function OpenOrder(shown: seq<U64>): seq<U64> {
    OpenBelow(shown, U64_SPAN)
  }

  /** The shown blocks say the same in the order they were shown as in the order they opened. */
  predicate InOrder(natives: Natives, shown: seq<U64>) {
    Sayings(natives, shown) == Sayings(natives, OpenOrder(shown))
  }

  predicate NoRepeats(shown: seq<U64>) {
    forall j, k :: 0 <= j < k < |shown| ==> shown[j] != shown[k]
  }

  // ----------------------------------------------------- captured against shown

  /** When every block that speaks was shown, the capture says what the shown blocks do. */
  lemma {:induction false} AllWereShown(natives: Natives, shown: seq<U64>, limit: nat)
    requires forall o: U64 :: Speaks(natives, o) ==> o in shown
    requires forall o :: o in shown ==> o in natives
    ensures FilterMap(Ascending(natives, limit), NativeSemantic)
      == Sayings(natives, OpenBelow(shown, limit))
  {
    hide NativeSemantic, FilterMap;
    if limit == 0 {
      NothingSaid(natives);
    } else {
      var o := limit - 1;
      AllWereShown(natives, shown, o);
      if o in natives {
        var order: U64 := o;
        FilterMapLast(Ascending(natives, o), natives[o], NativeSemantic);
        FilterMapLast(OpenBelow(shown, o), order, Saying(natives));
        assert Speaks(natives, order) <==> NativeSemantic(natives[o]).Some?;
        assert Sayings(natives, OpenBelow(shown, o)) + [] == Sayings(natives, OpenBelow(shown, o));
        assert OpenBelow(shown, o) + [] == OpenBelow(shown, o);
      } else {
        assert OpenBelow(shown, o) + [] == OpenBelow(shown, o);
        assert Ascending(natives, o) + [] == Ascending(natives, o);
      }
    }
  }

  lemma NothingSaid(natives: Natives)
    ensures FilterMap([], NativeSemantic) == [] && Sayings(natives, []) == []
  {
  }

  ghost function Speakers(natives: Natives, limit: nat): set<U64> {
    set o | o in natives && o < limit && Speaks(natives, o)
  }

  lemma {:induction false} SpeakersAreHeard(natives: Natives, limit: nat)
    ensures |FilterMap(Ascending(natives, limit), NativeSemantic)| == |Speakers(natives, limit)|
  {
    hide NativeSemantic, FilterMap;
    if limit == 0 {
      NothingSaid(natives);
      assert Speakers(natives, 0) == {};
    } else {
      var o := limit - 1;
      SpeakersAreHeard(natives, o);
      if o in natives {
        FilterMapLast(Ascending(natives, o), natives[o], NativeSemantic);
        var order: U64 := o;
        assert Speaks(natives, order) <==> NativeSemantic(natives[o]).Some?;
        assert Speakers(natives, limit) == Speakers(natives, o) + (if Speaks(natives, order) then {order} else {});
      } else {
        assert Ascending(natives, o) + [] == Ascending(natives, o);
        assert Speakers(natives, limit) == Speakers(natives, o);
      }
    }
  }

  function Heard(shown: seq<U64>): set<U64> {
    set o | o in shown
  }

  lemma {:induction false} NoRepeatsSize(shown: seq<U64>)
    requires NoRepeats(shown)
    ensures |Heard(shown)| == |shown|
  {
    if shown != [] {
      var rest := shown[1..];
      NoRepeatsSize(rest);
      assert forall k :: 0 <= k < |rest| ==> rest[k] == shown[k + 1];
      assert shown[0] !in Heard(rest);
      assert shown == [shown[0]] + rest;
      assert Heard(shown) == {shown[0]} + Heard(rest);
    }
  }

  /** A block that speaks and was not shown makes the capture say more. */
  lemma UnshownSaysMore(natives: Natives, shown: seq<U64>, unshown: U64)
    requires NoRepeats(shown) && forall o :: o in shown ==> Speaks(natives, o)
    requires Speaks(natives, unshown) && unshown !in shown
    ensures |Sayings(natives, shown)| < |FilterMap(Ascending(natives, U64_SPAN), NativeSemantic)|
  {
    hide NativeSemantic, FilterMap;
    var heard := Heard(shown);
    SpeakersAreHeard(natives, U64_SPAN);
    NoRepeatsSize(shown);
    FilterMapSize(shown, Saying(natives));
    assert |heard + {unshown}| == |heard| + 1;
    forall o | o in heard + {unshown} ensures o in Speakers(natives, U64_SPAN) {
      assert Speaks(natives, o);
    }
    SizeWithin(heard + {unshown}, Speakers(natives, U64_SPAN));
  }

  // ------------------------------------------------------------ when in order

  lemma RoomBelow(shown: seq<U64>, limit: nat)
    requires shown != [] && forall k :: 0 <= k < |shown| ==> shown[k] < limit
    ensures 0 < limit
  {
    assert shown[0] < limit;
  }

  lemma {:induction false} IncreasingIsOpenOrder(shown: seq<U64>, limit: nat)
    requires Increasing(shown) && forall k :: 0 <= k < |shown| ==> shown[k] < limit
    ensures OpenBelow(shown, limit) == shown
    decreases limit
  {
    if shown != [] {
      RoomBelow(shown, limit);
    }
    if limit > 0 {
      if limit - 1 in shown {
        var last := LastIs(shown, limit);
        var before := shown[..last];
        IncreasingIsOpenOrder(before, limit - 1);
        assert shown == before + [shown[last]];
        SamePlaces(Places(shown), Places(before), limit - 1);
      } else {
        forall k | 0 <= k < |shown| ensures shown[k] < limit - 1 {
          assert shown[k] in shown;
        }
        IncreasingIsOpenOrder(shown, limit - 1);
        assert OpenBelow(shown, limit - 1) + [] == OpenBelow(shown, limit - 1);
      }
    }
  }

  lemma {:induction false} SamePlaces(first: map<U64, U64>, second: map<U64, U64>, limit: nat)
    requires forall o: U64 :: o < limit ==> (o in first <==> o in second)
    requires forall o: U64 :: o in first && o in second ==> first[o] == second[o]
    ensures Ascending<U64>(first, limit) == Ascending<U64>(second, limit)
  {
    if limit > 0 {
      SamePlaces(first, second, limit - 1);
    }
  }

  /** Blocks shown in opening order are in order, whatever stayed silent in between. */
  lemma IncreasingIsInOrder(natives: Natives, shown: seq<U64>)
    requires Increasing(shown)
    ensures InOrder(natives, shown)
  {
    IncreasingIsOpenOrder(shown, U64_SPAN);
  }

  lemma {:induction false} OpenOrderIncreases(shown: seq<U64>, limit: nat)
    ensures Increasing(OpenBelow(shown, limit))
    ensures forall k :: 0 <= k < |OpenBelow(shown, limit)| ==> OpenBelow(shown, limit)[k] < limit
  {
    if limit > 0 {
      OpenOrderIncreases(shown, limit - 1);
    }
  }

  /** No two shown blocks say the same. */
  ghost predicate AllDiffer(natives: Natives, shown: seq<U64>) {
    forall o, p :: o in shown && p in shown && o != p ==> Saying(natives)(o) != Saying(natives)(p)
  }

  /** When no two shown blocks say the same, they are in order only if shown in opening order. */
  lemma DifferentNeedOrder(natives: Natives, shown: seq<U64>)
    requires AllDiffer(natives, shown) && forall o :: o in shown ==> Speaks(natives, o)
    ensures InOrder(natives, shown) <==> Increasing(shown)
  {
    hide NativeSemantic, FilterMap;
    var sorted := OpenOrder(shown);
    if Increasing(shown) {
      IncreasingIsInOrder(natives, shown);
    }
    if InOrder(natives, shown) {
      OpenOrderIncreases(shown, U64_SPAN);
      OpenOrderHasShown(shown, U64_SPAN);
      AllSpeak(natives, shown);
      AllSpeak(natives, sorted);
      forall k | 0 <= k < |shown| ensures shown[k] == sorted[k] {
        assert Some(Sayings(natives, shown)[k]) == Saying(natives)(shown[k]);
        assert Some(Sayings(natives, sorted)[k]) == Saying(natives)(sorted[k]);
      }
    }
  }

  lemma {:induction false} OpenOrderHasShown(shown: seq<U64>, limit: nat)
    ensures forall o :: o in OpenBelow(shown, limit) ==> o in shown
  {
    if limit > 0 {
      OpenOrderHasShown(shown, limit - 1);
    }
  }

  lemma {:induction false} AllSpeak(natives: Natives, orders: seq<U64>)
    requires forall o :: o in orders ==> Speaks(natives, o)
    ensures |Sayings(natives, orders)| == |orders|
    ensures forall k :: 0 <= k < |orders| ==> Saying(natives)(orders[k]) == Some(Sayings(natives, orders)[k])
  {
    hide NativeSemantic;
    if orders != [] {
      AllSpeak(natives, orders[1..]);
      assert Speaks(natives, orders[0]);
      assert Sayings(natives, orders) == [Saying(natives)(orders[0]).value] + Sayings(natives, orders[1..]);
      assert forall k :: 0 < k < |orders| ==> orders[k] == orders[1..][k - 1];
    }
  }
}
