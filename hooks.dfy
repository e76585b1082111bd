/**
  The lifecycle hooks: `after_save :_update_index` sends `Sunspot.index!`
  for the saved document and `after_destroy :_remove_index` sends
  `Sunspot.remove!` for the destroyed one. Replayed on the search index,
  the hooks keep each key's entry in step with the last save or destroy
  of a document with that key.
 */
module Hooks {
  import opened Wrappers
  import opened Documents
  import opened SearchIndex

  /** A callback Mongoid runs after a document is saved or destroyed. */
  datatype Lifecycle = AfterSave(record: Record) | AfterDestroy(record: Record)

  /** The single call the registered hook sends for a callback. */
  function HookCall(e: Lifecycle): (c: Call)
    ensures c.IndexNow? <==> e.AfterSave?
    ensures c.RemoveNow? <==> e.AfterDestroy?
    ensures (c.IndexNow? || c.RemoveNow?) && c.record == e.record
  {
    match e
    case AfterSave(r) => IndexNow(r)
    case AfterDestroy(r) => RemoveNow(r)
  }

  /** The log a run of callbacks produces, one call each, in order. */
  function HookCalls(es: seq<Lifecycle>): (calls: seq<Call>)
  {
    seq(|es|, i requires 0 <= i < |es| => HookCall(es[i]))
  }

  /** The last callback of `es` on a document whose key is `k`, if any. */
  function LastTouch(es: seq<Lifecycle>, k: string): (last: Option<Lifecycle>)
    ensures last.Some? ==> last.value in es && Key(last.value.record) == k
  {
    if es == [] then None
    else if Key(es[|es| - 1].record) == k then Some(es[|es| - 1])
    else LastTouch(es[..|es| - 1], k)
  }

  /** `LastTouch` finds nothing exactly when no callback touched `k`, and otherwise the last callback that did. */
  lemma {:induction false} LastTouchIsLast(es: seq<Lifecycle>, k: string)
    ensures LastTouch(es, k).None? <==> forall i :: 0 <= i < |es| ==> Key(es[i].record) != k
    ensures LastTouch(es, k).Some? ==>
      exists i :: 0 <= i < |es| && es[i] == LastTouch(es, k).value &&
        forall j :: i < j < |es| ==> Key(es[j].record) != k
  {
    if es != [] {
      var n := |es| - 1;
      var es' := es[..n];
      if Key(es[n].record) == k {
        assert es[n] == LastTouch(es, k).value && n + 1 == |es|;
      } else {
        LastTouchIsLast(es', k);
        assert LastTouch(es, k) == LastTouch(es', k);
        if LastTouch(es', k).Some? {
          var i :| 0 <= i < |es'| && es'[i] == LastTouch(es', k).value &&
            forall j :: i < j < |es'| ==> Key(es'[j].record) != k;
          assert es[i] == LastTouch(es, k).value;
          forall j | i < j < |es| ensures Key(es[j].record) != k {
            if j < n { assert es[j] == es'[j]; }
          }
        } else {
          forall i | 0 <= i < |es| ensures Key(es[i].record) != k {
            if i < n { assert es[i] == es'[i]; }
          }
        }
      }
    }
  }

  /** After a run of hooks, a key is visible exactly when its last callback was a save, with that document. */
  lemma {:induction false} HooksKeepIndexInSync(s: SolrState, es: seq<Lifecycle>, k: string)
    ensures es != [] ==> Replay(s, HookCalls(es)).visible == Replay(s, HookCalls(es)).staged
    ensures LastTouch(es, k).Some? && LastTouch(es, k).value.AfterSave? ==>
      k in Replay(s, HookCalls(es)).visible &&
      Replay(s, HookCalls(es)).visible[k] == LastTouch(es, k).value.record
    ensures LastTouch(es, k).Some? && LastTouch(es, k).value.AfterDestroy? ==>
      k !in Replay(s, HookCalls(es)).visible
    ensures LastTouch(es, k).None? ==>
      (k in Replay(s, HookCalls(es)).staged <==> k in s.staged) &&
      (k in s.staged ==> Replay(s, HookCalls(es)).staged[k] == s.staged[k])
  {
    if es != [] {
      var es', e := es[..|es| - 1], es[|es| - 1];
      var calls := HookCalls(es);
      assert calls[..|calls| - 1] == HookCalls(es');
      assert Replay(s, calls) == Apply(Replay(s, HookCalls(es')), HookCall(e));
      HooksKeepIndexInSync(s, es', k);
    }
  }

  /** Saving a document and then destroying it leaves no entry for its key. */
  lemma SaveThenDestroy(s: SolrState, es: seq<Lifecycle>, r: Record)
    ensures Key(r) !in Replay(s, HookCalls(es + [AfterSave(r), AfterDestroy(r)])).visible
  {
    var all := es + [AfterSave(r), AfterDestroy(r)];
    assert all[..|all| - 1] == es + [AfterSave(r)];
    assert LastTouch(all, Key(r)) == Some(AfterDestroy(r));
    HooksKeepIndexInSync(s, all, Key(r));
  }
}
