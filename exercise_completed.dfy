/** The end-of-exercise screen's verdict on the repetition count: four buckets with
    upper bounds 4, 8 and 12, each with its own message. */
module ExerciseCompleted {

  datatype Performance = Poor | Average | Good | Excellent

  /** The bucket of a repetition count: the first bucket whose bound the count does
      not exceed. */
  function PerformanceFor(repCount: int): Performance
  {
    if repCount <= 4 then Poor
    else if repCount <= 8 then Average
    else if repCount <= 12 then Good
    else Excellent
  }

  /** The bucket's name, which opens its message. */
  function Label(p: Performance): string
  {
    match p
    case Poor => "Poor"
    case Average => "Average"
    case Good => "Good"
    case Excellent => "Excellent"
  }

  /** The encouragement that follows the name. */
  function Remark(p: Performance): string
  {
    match p
    case Poor => "You can do better next time!"
    case Average => "Solid effort, keep it up!"
    case Good => "Great job, you're getting stronger!"
    case Excellent => "Outstanding performance! You're a pro."
  }

  /** A bucket's full message, "<name>: <remark>". */
  function MessageText(p: Performance): string
  {
    Label(p) + ": " + Remark(p)
  }

  /** The message the screen shows under the count. */
  function GetPerformanceMessage(repCount: int): string
  {
    MessageText(PerformanceFor(repCount))
  }

  /** The buckets from worst to best. */
  function Rank(p: Performance): nat
  {
    match p
    case Poor => 0
    case Average => 1
    case Good => 2
    case Excellent => 3
  }

  /** Each bucket holds exactly its range of counts: at most 4 (zero and negative
      counts included) is Poor, 5 to 8 Average, 9 to 12 Good, above 12 Excellent. */
  lemma Buckets(repCount: int)
    ensures PerformanceFor(repCount) == Poor <==> repCount <= 4
    ensures PerformanceFor(repCount) == Average <==> 5 <= repCount <= 8
    ensures PerformanceFor(repCount) == Good <==> 9 <= repCount <= 12
    ensures PerformanceFor(repCount) == Excellent <==> repCount > 12
  {
  }

  /** The rank of a count is the number of bucket bounds (4, 8, 12) it exceeds. */
  lemma RankCountsBoundsPassed(repCount: int)
    ensures Rank(PerformanceFor(repCount)) ==
      (if repCount > 4 then 1 else 0) + (if repCount > 8 then 1 else 0) + (if repCount > 12 then 1 else 0)
  {
  }

  /** More repetitions never give a worse verdict. */
  lemma PerformanceMonotone(a: int, b: int)
    requires a <= b
    ensures Rank(PerformanceFor(a)) <= Rank(PerformanceFor(b))
  {
  }

  /** The four messages are different, so the message alone tells the bucket: each
      begins with its bucket's name, and no two names share a first letter. */
  lemma MessagesDistinguishBuckets(p: Performance, q: Performance)
    ensures |MessageText(p)| > |Label(p)| && MessageText(p)[..|Label(p)|] == Label(p)
    ensures MessageText(p) == MessageText(q) <==> p == q
  {
    var m := MessageText(p);
    assert m[..|Label(p)|] == Label(p);
    if m == MessageText(q) {
      assert Label(p)[0] == m[0] == Label(q)[0];
    }
  }
}
