/** Which execution a venue fill activity describes, in the form the trade stream reports it. */
module Activities {
  import opened Wrappers

  predicate SeparatorAt(s: string, k: int) {
    0 <= k && k + 2 <= |s| && s[k] == ':' && s[k + 1] == ':'
  }

  /** lastIndexOf("::"), -1 when there is none. */
  function LastSeparator(s: string, limit: nat): (at: int)
    requires limit <= |s|
    ensures -1 <= at < limit
    ensures 0 <= at ==> SeparatorAt(s, at)
    ensures forall k | at < k < limit :: !SeparatorAt(s, k)
  {
    if limit == 0 then -1
    else if SeparatorAt(s, limit - 1) then limit - 1
    else LastSeparator(s, limit - 1)
  }

  /** A null or empty execution_id falls back to what follows the last separator of the activity id. */
  function ExecutionIdOf(executionId: Option<string>, activityId: string): string {
    if executionId.Some? && executionId.value != "" then executionId.value
    else
      var at := LastSeparator(activityId, |activityId|);
      if 0 <= at then activityId[at + 2..] else activityId
  }

  /**
   * An activity id `<timestamp>::<uuid>` yields the stream's execution id exactly when that id
   * neither starts with a colon nor holds a separator of its own. The venue's uuids do neither.
   */
  lemma StreamFormIff(timestamp: string, uuid: string)
    ensures ExecutionIdOf(None, timestamp + "::" + uuid) == uuid <==>
            (uuid == "" || uuid[0] != ':') && forall k | 0 <= k < |uuid| :: !SeparatorAt(uuid, k)
  {
    var id, n := timestamp + "::" + uuid, |timestamp|;
    var at := LastSeparator(id, |id|);
    assert SeparatorAt(id, n);
    assert id[n + 2..] == uuid;
    forall k | 0 <= k < |uuid|
      ensures SeparatorAt(uuid, k) <==> SeparatorAt(id, n + 2 + k)
    {
    }
    assert uuid != "" ==> (uuid[0] == ':' <==> SeparatorAt(id, n + 1));
    assert |id[at + 2..]| == |id| - at - 2;
    if n + 2 <= at { assert SeparatorAt(uuid, at - n - 2); }
  }
}
