/** The id arithmetic of postChatHandler (main.go:216-218): the largest id in
    the `chat` table, the id a post receives, and the invariant that makes
    ids unique and strictly increasing when posts are served one at a time. */
module ChatLog {
  import opened Types

  /** The answer of "select id from chat ORDER BY id DESC LIMIT 1", with 0
      standing for the empty table (no row, so `id` keeps its initial 0). */
  function MaxId(log: seq<Message>): nat
  {
    if log == [] then 0
    else
      var rest := MaxId(log[..|log| - 1]);
      var last := log[|log| - 1].id;
      if last > rest then last else rest
  }

  /** MaxId bounds every id in the log and, on a non-empty log, is one of them. */
  lemma {:induction false} MaxIdIsMaximum(log: seq<Message>)
    ensures forall i :: 0 <= i < |log| ==> log[i].id <= MaxId(log)
    ensures log != [] ==> exists i :: 0 <= i < |log| && log[i].id == MaxId(log)
  {
    if log != [] {
      var front := log[..|log| - 1];
      MaxIdIsMaximum(front);
      assert forall i :: 0 <= i < |front| ==> front[i] == log[i];
      var last := |log| - 1;
      if front != [] && log[last].id <= MaxId(front) {
        var k :| 0 <= k < |front| && front[k].id == MaxId(front);
        assert log[k].id == MaxId(log);
      } else {
        assert log[last].id == MaxId(log);
      }
    }
  }

  /** The id a successful post receives: one more than the largest id so far. */
  function NextId(log: seq<Message>): (id: nat)
    ensures id >= 1
    ensures forall i :: 0 <= i < |log| ==> log[i].id < id
    ensures log == [] ==> id == 1
    ensures log != [] ==> exists i :: 0 <= i < |log| && log[i].id == id - 1
  {
    MaxIdIsMaximum(log);
    MaxId(log) + 1
  }

  /** The log a serial run of posts builds from an empty table: the i-th row has id i + 1. */
  ghost predicate Dense(log: seq<Message>)
  {
    forall i :: 0 <= i < |log| ==> log[i].id == i + 1
  }

  /** On a dense log the largest id is the number of rows. */
  lemma {:induction false} DenseMaxId(log: seq<Message>)
    requires Dense(log)
    ensures MaxId(log) == |log|
  {
    if log != [] {
      var front := log[..|log| - 1];
      assert Dense(front) by {
        forall i | 0 <= i < |front| ensures front[i].id == i + 1 {
          assert front[i] == log[i];
        }
      }
      DenseMaxId(front);
    }
  }

  /** Appending a row with the next id keeps the log dense, and that id is |log| + 1. */
  lemma DenseAppend(log: seq<Message>, m: Message)
    requires Dense(log)
    requires m.id == NextId(log)
    ensures m.id == |log| + 1
    ensures Dense(log + [m])
  {
  }

  /** Ids in a dense log are unique and strictly increasing in log order. */
  lemma DenseIdsIncrease(log: seq<Message>)
    requires Dense(log)
    ensures forall i, j :: 0 <= i < j < |log| ==> log[i].id < log[j].id
    ensures forall i, j :: 0 <= i < |log| && 0 <= j < |log| && log[i].id == log[j].id ==> i == j
  {
  }

  /** The id main.go:216-218 actually inserts: the query's error is ignored, so
      when it fails `id` stays 0 and the row gets id 1 whatever the table holds. */
  function IdAsWritten(log: seq<Message>, queryOk: bool): (id: nat)
    ensures queryOk ==> forall i :: 0 <= i < |log| ==> log[i].id < id
    ensures !queryOk && Dense(log) && log != [] ==> id == log[0].id
  {
    if queryOk then NextId(log) else 1
  }

  /** On any non-empty dense log a failed max-id query makes the as-written
      handler insert a second row with id 1, so ids are no longer unique. */
  lemma FailedQueryRepeatsId(log: seq<Message>, m: Message)
    requires Dense(log) && log != []
    requires m.id == IdAsWritten(log, false)
    ensures (log + [m])[0].id == (log + [m])[|log|].id
    ensures !Dense(log + [m])
  {
  }
}
