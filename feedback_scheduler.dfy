/** The weekly feedback job: the users with driving data in the previous
  * week are handed to the feedback service in batches of fifty. */
module FeedbackScheduler {
  import opened Common
  import Feedback

  const BATCH_SIZE: int := 50

  /** The number of batches of `n` ids: n / 50 rounded up. */
  function BatchCount(n: nat): (c: nat)
    ensures n == 0 <==> c == 0
    ensures c > 0 ==> BATCH_SIZE * (c - 1) < n <= BATCH_SIZE * c
  {
    (n + BATCH_SIZE - 1) / BATCH_SIZE
  }

  /** The k-th batch: the ids from 50k up to 50k + 50 or the end. */
  function Batch(ids: seq<int>, k: nat): seq<int>
    requires k < BatchCount(|ids|)
  {
    ids[BATCH_SIZE * k..Min(BATCH_SIZE * k + BATCH_SIZE, |ids|)]
  }

  function Batches(ids: seq<int>): (bs: seq<seq<int>>)
    ensures |bs| == BatchCount(|ids|)
  {
    seq(BatchCount(|ids|), k requires 0 <= k < BatchCount(|ids|) => Batch(ids, k))
  }

  function Flatten(bs: seq<seq<int>>): seq<int>
  {
    if bs == [] then [] else Flatten(bs[..|bs| - 1]) + bs[|bs| - 1]
  }

  /** Every batch holds one to fifty ids, and all but the last exactly
    * fifty. */
  lemma BatchSizes(ids: seq<int>)
    ensures forall k :: 0 <= k < |Batches(ids)| ==>
      1 <= |Batches(ids)[k]| <= BATCH_SIZE && (k < |Batches(ids)| - 1 ==> |Batches(ids)[k]| == BATCH_SIZE)
  {
  }

  lemma {:induction false} BatchesPrefix(ids: seq<int>, k: nat)
    requires k <= BatchCount(|ids|)
    ensures Flatten(Batches(ids)[..k]) == ids[..Min(BATCH_SIZE * k, |ids|)]
  {
    if k > 0 {
      var bs := Batches(ids);
      assert bs[..k][..k - 1] == bs[..k - 1];
      BatchesPrefix(ids, k - 1);
      assert ids[..Min(BATCH_SIZE * k, |ids|)] ==
             ids[..Min(BATCH_SIZE * (k - 1), |ids|)] + Batch(ids, k - 1);
    }
  }

  /** Where the k-th batch starts and what taking it adds. */
  lemma NextBatch(ids: seq<int>, k: nat)
    requires k < BatchCount(|ids|)
    ensures BATCH_SIZE * k < |ids|
    ensures Batches(ids)[..k + 1] == Batches(ids)[..k] + [ids[BATCH_SIZE * k..Min(BATCH_SIZE * k + BATCH_SIZE, |ids|)]]
    ensures k + 1 < BatchCount(|ids|) <==> BATCH_SIZE * (k + 1) < |ids|
  {
    assert Batches(ids)[k] == Batch(ids, k);
  }

  /** The batches together are the id list, in order: every id is handed
    * over exactly once. */
  lemma BatchesCover(ids: seq<int>)
    ensures Flatten(Batches(ids)) == ids
  {
    BatchesPrefix(ids, BatchCount(|ids|));
    assert Batches(ids)[..BatchCount(|ids|)] == Batches(ids);
  }

  /** One turn of the job's loop: the next slice is the next batch. */
  lemma LoopStep(ids: seq<int>, batches: seq<seq<int>>, b: seq<int>)
    requires |batches| < BatchCount(|ids|) && batches == Batches(ids)[..|batches|]
    requires BATCH_SIZE * |batches| <= |ids|
    requires b == ids[BATCH_SIZE * |batches|..Min(BATCH_SIZE * |batches| + BATCH_SIZE, |ids|)]
    ensures batches + [b] == Batches(ids)[..|batches| + 1]
    ensures |batches| + 1 < BatchCount(|ids|) <==> BATCH_SIZE * (|batches| + 1) < |ids|
  {
    NextBatch(ids, |batches|);
  }

  /** Taking one more batch: the feedbacks for the ids so far grow by those
    * of the batch. */
  lemma FeedbacksStep(batches: seq<seq<int>>, b: seq<int>, users: set<int>,
                      resultsOf: int -> seq<Option<Feedback.RiskCounts>>)
    ensures Feedback.WeeklyBatch(Flatten(batches + [b]), users, resultsOf) ==
      Feedback.WeeklyBatch(Flatten(batches), users, resultsOf) + Feedback.WeeklyBatch(b, users, resultsOf)
  {
    assert (batches + [b])[..|batches|] == batches;
    assert Flatten(batches + [b]) == Flatten(batches) + b;
    Feedback.WeeklyBatchAppend(Flatten(batches), b, users, resultsOf);
  }

  /** generateWeeklyFeedbacks: no ids, no batch; otherwise the ids are
    * handed over in slices of fifty, in order. Which users have driving
    * data in the previous week is an input, and so are the users and
    * their results that the feedback service reads. */
  method GenerateWeeklyFeedbacks(userIds: seq<int>, users: set<int>,
                                 resultsOf: int -> seq<Option<Feedback.RiskCounts>>)
    returns (batches: seq<seq<int>>, feedbacks: seq<Feedback.WeeklyFeedback>)
    ensures batches == Batches(userIds)
    ensures feedbacks == Feedback.WeeklyBatch(userIds, users, resultsOf)
  {
    batches := [];
    feedbacks := [];
    if |userIds| == 0 {
      return;
    }
    var batchSize := BATCH_SIZE;
    var i := 0;
    while i < |userIds|
      invariant i == BATCH_SIZE * |batches|
      invariant |batches| <= BatchCount(|userIds|)
      invariant |batches| < BatchCount(|userIds|) <==> i < |userIds|
      invariant batches == Batches(userIds)[..|batches|]
      invariant feedbacks == Feedback.WeeklyBatch(Flatten(batches), users, resultsOf)
      decreases |userIds| - i
    {
      var endIndex := Min(i + batchSize, |userIds|);
      var batchUserIds := userIds[i..endIndex];
      LoopStep(userIds, batches, batchUserIds);
      FeedbacksStep(batches, batchUserIds, users, resultsOf);
      var produced := Feedback.GenerateWeeklyFeedbacksBatch(Some(batchUserIds), users, resultsOf);
      batches := batches + [batchUserIds];
      feedbacks := feedbacks + produced;
      i := i + batchSize;
    }
    assert Batches(userIds)[..|batches|] == Batches(userIds);
    BatchesCover(userIds);
  }
}
