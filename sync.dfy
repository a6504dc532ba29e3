/**
  The two bookkeeping patterns the synchronisation engine repeats for several
  record kinds, stated once over a generic record type `R`:
  - export: walk the dirty records in order, stop at the first rejected reply,
    and write back the returned remote id of every record accepted before it;
  - upsert: for each remote entry with a non-zero id, update the first local
    record carrying that remote id, or create one.
*/
module Sync {
  import opened Common

  /** The transport's answer to one export request. `Raised` stands for any exception. */
  datatype Reply = Reply(status: int, returnedId: Option<int>) | Raised

  /** `200 <= status < 300 and "id" in response.json()`. */
  predicate Accepted(r: Reply) {
    r.Reply? && IsSuccess(r.status) && r.returnedId.Some?
  }

  /** The reply to the k-th request of a run; a missing one counts as a failure. */
  function ReplyAt(replies: seq<Reply>, k: nat): Reply {
    if k < |replies| then replies[k] else Raised
  }

  /**
    The remote ids returned for the leading accepted requests among the first
    `n`: the run stops at the first reply that is not accepted.
  */
  function AcceptedIds(replies: seq<Reply>, n: nat): (ids: seq<int>)
    ensures |ids| <= n
    ensures forall k :: 0 <= k < |ids| ==>
      Accepted(ReplyAt(replies, k)) && ids[k] == ReplyAt(replies, k).returnedId.value
    ensures |ids| < n ==> !Accepted(ReplyAt(replies, |ids|))
    decreases n
  {
    if n == 0 then []
    else
      var prev := AcceptedIds(replies, n - 1);
      if |prev| == n - 1 && Accepted(ReplyAt(replies, n - 1))
      then prev + [ReplyAt(replies, n - 1).returnedId.value]
      else prev
  }

  /** Once the run has stopped, later requests change nothing. */
  lemma {:induction false} AcceptedIdsStop(replies: seq<Reply>, n: nat)
    requires |AcceptedIds(replies, n)| < n
    ensures AcceptedIds(replies, n + 1) == AcceptedIds(replies, n)
  {
  }

  /** A run that stopped at request `k` returns the same ids however many requests were queued after it. */
  lemma {:induction false} AcceptedIdsStopped(replies: seq<Reply>, k: nat, n: nat)
    requires k <= n && |AcceptedIds(replies, k)| == k && !Accepted(ReplyAt(replies, k))
    ensures AcceptedIds(replies, n) == AcceptedIds(replies, k)
    decreases n - k
  {
    if k < n {
      AcceptedIdsStopped(replies, k, n - 1);
      if k < n - 1 {
        AcceptedIdsStop(replies, n - 1);
      }
    }
  }

  /** Local ids of the records whose flag is set, in ascending order (the dirty search). */
  function Marked(flags: seq<bool>): (ids: seq<nat>)
    ensures forall i: nat :: i in ids <==> i < |flags| && flags[i]
    ensures forall a, b :: 0 <= a < b < |ids| ==> ids[a] < ids[b]
    ensures forall a :: 0 <= a < |ids| ==> ids[a] < |flags|
    decreases |flags|
  {
    if flags == [] then []
    else
      var n := |flags| - 1;
      var prev := Marked(flags[..n]);
      if flags[n] then prev + [n] else prev
  }

  predicate Increasing(batch: seq<nat>) {
    forall a, b :: 0 <= a < b < |batch| ==> batch[a] < batch[b]
  }

  /**
    The records after the write-back of an export run: the k-th record of the
    batch is committed with the k-th returned id, for as many ids as were returned.
  */
  function Exported<R>(rs: seq<R>, batch: seq<nat>, ids: seq<int>, commit: (R, int) -> R): (out: seq<R>)
    requires |ids| <= |batch|
    requires forall k :: 0 <= k < |batch| ==> batch[k] < |rs|
    ensures |out| == |rs|
    decreases |ids|
  {
    if ids == [] then rs
    else
      var n := |ids| - 1;
      var prev := Exported(rs, batch, ids[..n], commit);
      prev[batch[n] := commit(prev[batch[n]], ids[n])]
  }

  /** A record that was exported before the failure carries its returned id. */
  lemma {:induction false} ExportedCommitted<R>(rs: seq<R>, batch: seq<nat>, ids: seq<int>, commit: (R, int) -> R, k: nat)
    requires |ids| <= |batch| && Increasing(batch)
    requires forall i :: 0 <= i < |batch| ==> batch[i] < |rs|
    requires k < |ids|
    ensures Exported(rs, batch, ids, commit)[batch[k]] == commit(rs[batch[k]], ids[k])
    decreases |ids|
  {
    var n := |ids| - 1;
    if k == n {
      ExportedUntouched(rs, batch, ids[..n], commit, batch[n]);
    } else {
      ExportedCommitted(rs, batch, ids[..n], commit, k);
    }
  }

  /** A record not reached by the run (not dirty, or after the failure) is unchanged. */
  lemma {:induction false} ExportedUntouched<R>(rs: seq<R>, batch: seq<nat>, ids: seq<int>, commit: (R, int) -> R, j: nat)
    requires |ids| <= |batch| && Increasing(batch)
    requires forall i :: 0 <= i < |batch| ==> batch[i] < |rs|
    requires j < |rs| && j !in batch[..|ids|]
    ensures Exported(rs, batch, ids, commit)[j] == rs[j]
    decreases |ids|
  {
    if ids != [] {
      var n := |ids| - 1;
      assert batch[n] in batch[..|ids|];
      assert batch[..n] == batch[..|ids|][..n];
      ExportedUntouched(rs, batch, ids[..n], commit, j);
    }
  }

  // ---------------------------------------------------------------- upsert

  /** One remote entry: its remote id and the field values prepared from it. */
  datatype Entry<V> = Entry(remoteId: int, vals: V)

  /** The remote-id column of a table. */
  function Keys<R>(rs: seq<R>, key: R -> int): (ks: seq<int>)
    ensures |ks| == |rs| && forall i :: 0 <= i < |rs| ==> ks[i] == key(rs[i])
  {
    seq(|rs|, i requires 0 <= i < |rs| => key(rs[i]))
  }

  /**
    One iteration of an upsert loop: entries with a falsy id are skipped, the
    first record with the id is updated, otherwise a record is created.
  */
  function UpsertStep<R(!new), V>(rs: seq<R>, key: R -> int, e: Entry<V>, update: (R, V) -> R, create: (V, nat) -> R): (out: seq<R>)
    ensures e.remoteId == 0 ==> out == rs
    ensures e.remoteId != 0 && e.remoteId in Keys(rs, key) ==>
      var j := FirstIndex(Keys(rs, key), e.remoteId).value;
      out == rs[j := update(rs[j], e.vals)]
    ensures e.remoteId != 0 && e.remoteId !in Keys(rs, key) ==> out == rs + [create(e.vals, |rs|)]
  {
    if e.remoteId == 0 then rs
    else
      match FirstIndex(Keys(rs, key), e.remoteId)
      case Some(j) => rs[j := update(rs[j], e.vals)]
      case None => rs + [create(e.vals, |rs|)]
  }

  /** The upsert loop over a whole payload: it never removes a record and creates at most one per entry. */
  function Upserted<R(!new), V>(rs: seq<R>, key: R -> int, es: seq<Entry<V>>, update: (R, V) -> R, create: (V, nat) -> R): (out: seq<R>)
    ensures |rs| <= |out| <= |rs| + |es|
    decreases |es|
  {
    if es == [] then rs
    else UpsertStep(Upserted(rs, key, es[..|es| - 1], update, create), key, es[|es| - 1], update, create)
  }

  /** Updating or creating from an entry gives a record carrying that entry's remote id. */
  ghost predicate KeyConsistent<R(!new), V>(key: R -> int, es: seq<Entry<V>>, update: (R, V) -> R, create: (V, nat) -> R) {
    forall e | e in es && e.remoteId != 0 ::
      (forall n: nat :: key(create(e.vals, n)) == e.remoteId) && forall r :: key(update(r, e.vals)) == e.remoteId
  }

  /** A step keeps the remote-id column, appending the id when it creates. */
  lemma StepKeys<R(!new), V>(rs: seq<R>, key: R -> int, e: Entry<V>, update: (R, V) -> R, create: (V, nat) -> R)
    requires KeyConsistent(key, [e], update, create)
    ensures e.remoteId != 0 && e.remoteId !in Keys(rs, key) ==>
      Keys(UpsertStep(rs, key, e, update, create), key) == Keys(rs, key) + [e.remoteId]
    ensures e.remoteId == 0 || e.remoteId in Keys(rs, key) ==>
      Keys(UpsertStep(rs, key, e, update, create), key) == Keys(rs, key)
  {
    assert e in [e];
  }

  lemma {:induction false} UpsertedPrefixConsistent<R(!new), V>(key: R -> int, es: seq<Entry<V>>, update: (R, V) -> R, create: (V, nat) -> R)
    requires KeyConsistent(key, es, update, create) && es != []
    ensures KeyConsistent(key, es[..|es| - 1], update, create)
    ensures KeyConsistent(key, [es[|es| - 1]], update, create)
  {
    forall e | e in es[..|es| - 1] ensures e in es { }
  }

  /** After an upsert every non-zero remote id of the payload has a local record. */
  lemma {:induction false} UpsertedCovers<R(!new), V>(rs: seq<R>, key: R -> int, es: seq<Entry<V>>, update: (R, V) -> R, create: (V, nat) -> R)
    requires KeyConsistent(key, es, update, create)
    ensures forall x :: x in Keys(rs, key) ==> x in Keys(Upserted(rs, key, es, update, create), key)
    ensures forall e | e in es && e.remoteId != 0 :: e.remoteId in Keys(Upserted(rs, key, es, update, create), key)
    decreases |es|
  {
    if es != [] {
      var n := |es| - 1;
      UpsertedPrefixConsistent(key, es, update, create);
      UpsertedCovers(rs, key, es[..n], update, create);
      var prev := Upserted(rs, key, es[..n], update, create);
      StepKeys(prev, key, es[n], update, create);
      forall e | e in es && e.remoteId != 0
        ensures e.remoteId in Keys(Upserted(rs, key, es, update, create), key)
      {
        if e != es[n] {
          assert e in es[..n] by {
            var i :| 0 <= i < |es| && es[i] == e;
            assert i < n && es[..n][i] == e;
          }
        }
      }
    }
  }

  /** A record whose remote id is not the non-zero id of any entry is left exactly as it was. */
  lemma {:induction false} UpsertedUntouched<R(!new), V>(rs: seq<R>, key: R -> int, es: seq<Entry<V>>, update: (R, V) -> R, create: (V, nat) -> R, i: nat)
    requires i < |rs|
    requires forall e | e in es && e.remoteId != 0 :: key(rs[i]) != e.remoteId
    ensures Upserted(rs, key, es, update, create)[i] == rs[i]
    decreases |es|
  {
    if es != [] {
      var n := |es| - 1;
      var e := es[n];
      assert e in es;
      forall d | d in es[..n] && d.remoteId != 0 ensures key(rs[i]) != d.remoteId {
        assert d in es;
      }
      UpsertedUntouched(rs, key, es[..n], update, create, i);
      var prev := Upserted(rs, key, es[..n], update, create);
      if e.remoteId != 0 && e.remoteId in Keys(prev, key) {
        var j := FirstIndex(Keys(prev, key), e.remoteId).value;
        assert Keys(prev, key)[i] != Keys(prev, key)[j];
      }
    }
  }

  /** If every remote id is already known, an upsert creates nothing. */
  lemma {:induction false} UpsertedKnown<R(!new), V>(rs: seq<R>, key: R -> int, es: seq<Entry<V>>, update: (R, V) -> R, create: (V, nat) -> R)
    requires KeyConsistent(key, es, update, create)
    requires forall e | e in es && e.remoteId != 0 :: e.remoteId in Keys(rs, key)
    ensures Keys(Upserted(rs, key, es, update, create), key) == Keys(rs, key)
    ensures |Upserted(rs, key, es, update, create)| == |rs|
    decreases |es|
  {
    if es != [] {
      var n := |es| - 1;
      UpsertedPrefixConsistent(key, es, update, create);
      forall e | e in es[..n] && e.remoteId != 0 ensures e.remoteId in Keys(rs, key) {
        assert e in es;
      }
      UpsertedKnown(rs, key, es[..n], update, create);
      assert es[n] in es;
      StepKeys(Upserted(rs, key, es[..n], update, create), key, es[n], update, create);
    }
  }

  /** Importing the same payload a second time creates no duplicate records. */
  lemma UpsertedTwiceNoDuplicates<R(!new), V>(rs: seq<R>, key: R -> int, es: seq<Entry<V>>, update: (R, V) -> R, create: (V, nat) -> R)
    requires KeyConsistent(key, es, update, create)
    ensures var once := Upserted(rs, key, es, update, create);
      |Upserted(once, key, es, update, create)| == |once|
  {
    UpsertedCovers(rs, key, es, update, create);
    UpsertedKnown(Upserted(rs, key, es, update, create), key, es, update, create);
  }

  lemma FirstIndexAppend<T>(s: seq<T>, t: seq<T>, x: T)
    requires x in s
    ensures FirstIndex(s + t, x) == FirstIndex(s, x)
  {
    var j := FirstIndex(s, x).value;
    assert (s + t)[..j] == s[..j];
    assert (s + t)[j] == x;
  }

  /**
    After an upsert, the record the next lookup by remote id finds for each
    entry of the payload satisfies every property that both updating and
    creating from that entry establish (for products: it is not dirty).
  */
  lemma {:induction false} UpsertedFirstMatch<R(!new), V>(rs: seq<R>, key: R -> int, es: seq<Entry<V>>, update: (R, V) -> R, create: (V, nat) -> R, p: R -> bool)
    requires KeyConsistent(key, es, update, create)
    requires forall e | e in es && e.remoteId != 0 :: (forall n: nat :: p(create(e.vals, n))) && forall r :: p(update(r, e.vals))
    ensures var out := Upserted(rs, key, es, update, create);
      forall e | e in es && e.remoteId != 0 ::
        e.remoteId in Keys(out, key) && p(out[FirstIndex(Keys(out, key), e.remoteId).value])
    decreases |es|
  {
    if es != [] {
      var n := |es| - 1;
      var e := es[n];
      assert e in es;
      UpsertedPrefixConsistent(key, es, update, create);
      forall d | d in es[..n] && d.remoteId != 0
        ensures (forall n: nat :: p(create(d.vals, n))) && forall r :: p(update(r, d.vals))
      {
        assert d in es;
      }
      UpsertedFirstMatch(rs, key, es[..n], update, create, p);
      var prev := Upserted(rs, key, es[..n], update, create);
      var out := Upserted(rs, key, es, update, create);
      assert out == UpsertStep(prev, key, e, update, create);
      StepKeys(prev, key, e, update, create);
      forall d | d in es && d.remoteId != 0
        ensures d.remoteId in Keys(out, key) && p(out[FirstIndex(Keys(out, key), d.remoteId).value])
      {
        var isLast := d.remoteId == e.remoteId;
        if !isLast {
          assert d in es[..n] by {
            var i :| 0 <= i < |es| && es[i] == d;
            assert i != n;
            assert es[..n][i] == d;
          }
          var j := FirstIndex(Keys(prev, key), d.remoteId).value;
          if e.remoteId != 0 && e.remoteId !in Keys(prev, key) {
            FirstIndexAppend(Keys(prev, key), [e.remoteId], d.remoteId);
          } else if e.remoteId != 0 {
            var i := FirstIndex(Keys(prev, key), e.remoteId).value;
            assert Keys(prev, key)[i] != Keys(prev, key)[j];
          }
        } else if e.remoteId in Keys(prev, key) {
          var i := FirstIndex(Keys(prev, key), e.remoteId).value;
          assert out[i] == update(prev[i], e.vals);
        } else {
          var ks := Keys(prev, key);
          assert Keys(out, key) == ks + [e.remoteId];
          assert (ks + [e.remoteId])[..|ks|] == ks;
          assert FirstIndex(Keys(out, key), e.remoteId).value == |ks|;
        }
      }
    }
  }
}
