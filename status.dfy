/** The consumer status, derived on demand from the flow manager and the assignment. */
module StatusRule {

  import opened KafkaTypes

  datatype ConsumerStatus = Stopped | Running | PartiallyRunning | Paused

  /** The rule of the `Status` getter: `pausedCount` is the number of partitions the flow
      manager has paused, or None when there is no flow manager. */
  function DeriveStatus(pausedCount: Option<nat>, assignedCount: nat): (s: ConsumerStatus)
    ensures s == Stopped <==> pausedCount.None?
    ensures s == Running <==> pausedCount == Some(0)
    ensures s == Paused <==> pausedCount.Some? && pausedCount.value != 0 && pausedCount.value == assignedCount
    ensures s == PartiallyRunning <==>
              pausedCount.Some? && pausedCount.value != 0 && pausedCount.value != assignedCount
  {
    match pausedCount
    case None => Stopped
    case Some(paused) =>
      if paused == 0 then Running
      else if paused == assignedCount then Paused
      else PartiallyRunning
  }

  ghost predicate Distinct<T>(s: seq<T>)
  {
    forall i, j :: 0 <= i < j < |s| ==> s[i] != s[j]
  }

  ghost function Elements<T>(s: seq<T>): set<T>
  {
    set x | x in s
  }

  lemma {:induction false} DistinctCardinality<T>(s: seq<T>)
    requires Distinct(s)
    ensures |Elements(s)| == |s|
  {
    if s != [] {
      var rest := s[1..];
      assert Distinct(rest) by {
        forall i, j | 0 <= i < j < |rest| ensures rest[i] != rest[j] {
          assert rest[i] == s[i + 1] && rest[j] == s[j + 1];
        }
      }
      DistinctCardinality(rest);
      assert s[0] !in Elements(rest);
      assert Elements(s) == {s[0]} + Elements(rest) by {
        assert s == [s[0]] + rest;
      }
    }
  }

  /** What the count comparison means: when the paused partitions are distinct assigned
      partitions, the status says whether none, all, or some but not all of the assigned
      partitions are paused. */
  lemma PausedCountReflectsPausedSet(paused: seq<TopicPartition>, assignment: seq<TopicPartition>)
    requires Distinct(paused) && Distinct(assignment)
    requires forall p :: p in paused ==> p in assignment
    ensures DeriveStatus(Some(|paused|), |assignment|) == Running <==> paused == []
    ensures DeriveStatus(Some(|paused|), |assignment|) == Paused <==>
              paused != [] && forall p :: p in assignment ==> p in paused
    ensures DeriveStatus(Some(|paused|), |assignment|) == PartiallyRunning <==>
              paused != [] && exists p :: p in assignment && p !in paused
  {
    var pausedSet, assignedSet := Elements(paused), Elements(assignment);
    DistinctCardinality(paused);
    DistinctCardinality(assignment);
    assert pausedSet <= assignedSet;
    var unpaused := assignedSet - pausedSet;
    assert assignedSet == pausedSet + unpaused;
    assert |assignedSet| == |pausedSet| + |unpaused|;
    if unpaused == {} {
      assert forall p :: p in assignment ==> p in paused by {
        forall p | p in assignment ensures p in paused {
          assert p in assignedSet;
        }
      }
    } else {
      var q :| q in unpaused;
      assert q in assignment && q !in paused;
    }
  }
}
