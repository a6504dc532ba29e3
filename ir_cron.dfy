/**
  The scheduled-job guard: a job linked to an integration cannot be deleted
  directly; it only goes away with its integration.
*/
module IrCron {
  import opened Common
  import opened Schema

  const RefusalPrefix := "You cannot delete a scheduled job linked to Dummy ERP integration ("

  /** The refusal message, naming the linked integration between the parentheses. */
  function RefusalMessage(integrationName: string): (m: string)
    ensures |m| == |RefusalPrefix| + |integrationName| + 1
    ensures m[..|RefusalPrefix|] == RefusalPrefix && m[|m| - 1] == ')'
    ensures m[|RefusalPrefix|..|m| - 1] == integrationName
  {
    RefusalPrefix + integrationName + ")"
  }

  /** The position in `ids` of the first job linked to an integration, if any. */
  function FirstLinked(crons: map<nat, Cron>, ids: seq<nat>): (r: Option<nat>)
    requires forall k :: 0 <= k < |ids| ==> ids[k] in crons
    ensures r.Some? <==> exists k :: 0 <= k < |ids| && crons[ids[k]].integrationId.Some?
    ensures r.Some? ==> r.value < |ids| && crons[ids[r.value]].integrationId.Some?
    ensures r.Some? ==> forall k :: 0 <= k < r.value ==> crons[ids[k]].integrationId.None?
    decreases |ids|
  {
    if ids == [] then None
    else
      var n := |ids| - 1;
      var prev := FirstLinked(crons, ids[..n]);
      if prev.Some? then prev
      else if crons[ids[n]].integrationId.Some? then Some(n)
      else None
  }

  /**
    `ir.cron.unlink` on the jobs `ids`: walk them in order and refuse at the
    first one linked to an integration, before deleting anything; otherwise
    delete them all. Returns the refusal message, if any.
  */
  method Unlink(store: Store, ids: seq<nat>) returns (refused: Option<string>)
    requires Valid(store.State())
    requires forall k :: 0 <= k < |ids| ==> ids[k] in store.crons
    modifies store
    ensures Valid(store.State())
    ensures refused.Some? <==> FirstLinked(old(store.crons), ids).Some?
    ensures refused.Some? ==> store.State() == old(store.State())
    ensures refused.Some? ==>
      var job := old(store.crons)[ids[FirstLinked(old(store.crons), ids).value]];
      refused.value == RefusalMessage(old(store.integrations)[job.integrationId.value].name)
    ensures refused.None? ==> store.State() == old(store.State()).(crons := old(store.crons) - set k | 0 <= k < |ids| :: ids[k])
  {
    var i := 0;
    while i < |ids|
      invariant 0 <= i <= |ids|
      invariant FirstLinked(store.crons, ids[..i]).None?
    {
      assert ids[..i + 1][..i] == ids[..i];
      var job := store.crons[ids[i]];
      if job.integrationId.Some? {
        assert FirstLinked(store.crons, ids[..i + 1]) == Some(i);
        FirstLinkedPrefix(store.crons, ids, i + 1);
        return Some(RefusalMessage(store.integrations[job.integrationId.value].name));
      }
      i := i + 1;
    }
    assert ids[..i] == ids;
    store.crons := store.crons - set k | 0 <= k < |ids| :: ids[k];
    refused := None;
  }

  /** A link found in a prefix is the first link of the whole list. */
  lemma {:induction false} FirstLinkedPrefix(crons: map<nat, Cron>, ids: seq<nat>, m: nat)
    requires forall k :: 0 <= k < |ids| ==> ids[k] in crons
    requires m <= |ids| && FirstLinked(crons, ids[..m]).Some?
    ensures FirstLinked(crons, ids) == FirstLinked(crons, ids[..m])
    decreases |ids| - m
  {
    if m < |ids| {
      assert ids[..m + 1][..m] == ids[..m];
      FirstLinkedPrefix(crons, ids, m + 1);
    } else {
      assert ids[..m] == ids;
    }
  }
}
