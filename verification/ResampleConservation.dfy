/** What resampling keeps: sane bars, and the volume of exactly the bars in complete groups. */
module ResampleConservation {
  import opened Wrappers
  import opened Ohlcv
  import opened CandleFrames
  import opened Resampling

  /** Rows of sane bars are sane: positive prices, low <= open, close <= high. */
  lemma RowsAreSane(frame: seq<Bar>, source: nat, target: nat, row: Bar)
    requires source >= 1 && target >= 1
    requires forall b :: b in frame ==> Sane(b.quote)
    requires row in Resample(frame, source, target)
    ensures Sane(row.quote)
  {
    ResampleMembers(frame, source, target);
    var key := KeyOf(row.ts, target);
    GroupMembers(frame, key, target);
    var group := Group(frame, key, target);
    assert RowAt(frame, key, source, target) == Some(row);
    forall q | q in QuotesOf(group) ensures Sane(q) {
      var i :| 0 <= i < |group| && group[i].quote == q;
      assert group[i] in group;
    }
    MergeSane(QuotesOf(group));
  }

  function VolumeOf(frame: seq<Bar>): real { TotalVolume(QuotesOf(frame)) }

  lemma VolumeSnoc(frame: seq<Bar>, bar: Bar)
    ensures VolumeOf(frame + [bar]) == VolumeOf(frame) + bar.quote.volume
  {
    assert QuotesOf(frame + [bar]) == QuotesOf(frame) + [bar.quote];
    TotalVolumeConcat(QuotesOf(frame), [bar.quote]);
    MergeOne(bar.quote);
  }

  /** The bars whose group key is listed. */
  function InGroups(frame: seq<Bar>, keys: seq<Key>, target: nat): seq<Bar>
    requires target >= 1
  {
    if frame == [] then []
    else
      var front, last := frame[..|frame| - 1], frame[|frame| - 1];
      if KeyOf(last.ts, target) in keys then InGroups(front, keys, target) + [last] else InGroups(front, keys, target)
  }

  function GroupVolumes(frame: seq<Bar>, keys: seq<Key>, target: nat): real
    requires target >= 1
  {
    if keys == [] then 0.0
    else GroupVolumes(frame, keys[..|keys| - 1], target) + VolumeOf(Group(frame, keys[|keys| - 1], target))
  }

  /** One more bar adds its volume to the listed group it belongs to, once. */
  lemma {:induction false} GroupVolumesSnoc(front: seq<Bar>, last: Bar, keys: seq<Key>, target: nat)
    requires target >= 1 && SortedKeys(keys)
    ensures GroupVolumes(front + [last], keys, target)
            == GroupVolumes(front, keys, target) + (if KeyOf(last.ts, target) in keys then last.quote.volume else 0.0)
  {
    if keys != [] {
      var others, key := keys[..|keys| - 1], keys[|keys| - 1];
      GroupVolumesSnoc(front, last, others, target);
      assert keys == others + [key];
      assert key !in others;
      assert (front + [last])[..|front|] == front;
      VolumeSnoc(Group(front, key, target), last);
      hide KeyOf;
    }
  }

  lemma {:induction false} GroupVolumesPartition(frame: seq<Bar>, keys: seq<Key>, target: nat)
    requires target >= 1 && SortedKeys(keys)
    ensures GroupVolumes(frame, keys, target) == VolumeOf(InGroups(frame, keys, target))
  {
    if frame == [] {
      NoVolume(keys, target);
    } else {
      var front, last := frame[..|frame| - 1], frame[|frame| - 1];
      GroupVolumesPartition(front, keys, target);
      GroupVolumesSnoc(front, last, keys, target);
      assert frame == front + [last];
      VolumeSnoc(InGroups(front, keys, target), last);
    }
  }

  lemma {:induction false} NoVolume(keys: seq<Key>, target: nat)
    requires target >= 1
    ensures GroupVolumes([], keys, target) == 0.0
  {
    if keys != [] {
      NoVolume(keys[..|keys| - 1], target);
    }
  }

  /** The keys whose group becomes a row. */
  function CompleteKeys(frame: seq<Bar>, keys: seq<Key>, source: nat, target: nat): seq<Key>
    requires source >= 1 && target >= 1
  {
    if keys == [] then []
    else
      var front, last := keys[..|keys| - 1], keys[|keys| - 1];
      CompleteKeys(frame, front, source, target)
      + (if RowAt(frame, last, source, target).Some? then [last] else [])
  }

  lemma {:induction false} CompleteKeysSorted(frame: seq<Bar>, keys: seq<Key>, source: nat, target: nat)
    requires source >= 1 && target >= 1 && SortedKeys(keys)
    ensures SortedKeys(CompleteKeys(frame, keys, source, target))
    ensures forall k :: k in CompleteKeys(frame, keys, source, target)
                        <==> k in keys && RowAt(frame, k, source, target).Some?
  {
    hide RowAt;
    if keys != [] {
      var front, last := keys[..|keys| - 1], keys[|keys| - 1];
      CompleteKeysSorted(frame, front, source, target);
      assert keys == front + [last];
      var c := CompleteKeys(frame, front, source, target);
      assert forall i :: 0 <= i < |c| ==> c[i] in c;
      assert forall k :: k in front ==> Before(k, last);
    }
  }

  lemma {:induction false} RowsVolume(frame: seq<Bar>, keys: seq<Key>, source: nat, target: nat)
    requires source >= 1 && target >= 1
    ensures VolumeOf(Rows(frame, keys, source, target))
            == GroupVolumes(frame, CompleteKeys(frame, keys, source, target), target)
  {
    if keys != [] {
      var front, last := keys[..|keys| - 1], keys[|keys| - 1];
      RowsVolume(frame, front, source, target);
      var rows, complete := Rows(frame, front, source, target), CompleteKeys(frame, front, source, target);
      var row := RowAt(frame, last, source, target);
      if row.Some? {
        assert row.value.quote.volume == VolumeOf(Group(frame, last, target));
        VolumeSnoc(rows, row.value);
        assert (complete + [last])[..|complete|] == complete;
        assert Rows(frame, keys, source, target) == rows + [row.value];
        assert CompleteKeys(frame, keys, source, target) == complete + [last];
      } else {
        assert Rows(frame, keys, source, target) == rows;
        assert CompleteKeys(frame, keys, source, target) == complete;
      }
      hide RowAt, Group, VolumeOf;
    }
  }

  /** The rows carry the volume of the bars in complete groups, no more and no less. */
  lemma VolumeOfCompleteGroups(frame: seq<Bar>, source: nat, target: nat)
    requires source >= 1 && target >= 1
    ensures var complete := CompleteKeys(frame, Keys(frame, target), source, target);
            && VolumeOf(Resample(frame, source, target)) == VolumeOf(InGroups(frame, complete, target))
            && forall k :: k in complete <==> k in Keys(frame, target) && RowAt(frame, k, source, target).Some?
  {
    KeysOfFrame(frame, target);
    CompleteKeysSorted(frame, Keys(frame, target), source, target);
    RowsVolume(frame, Keys(frame, target), source, target);
    GroupVolumesPartition(frame, CompleteKeys(frame, Keys(frame, target), source, target), target);
  }
}
