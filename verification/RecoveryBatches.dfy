/** Grouping pending journal rows so that recovery handles each account's rows
    in one worker and in their listed order. */
module RecoveryBatches {

  datatype Pending = Pending(account: int, key: string)

  function OfAccount(items: seq<Pending>, account: int): seq<Pending>
  {
    if items == [] then []
    else OfAccount(items[..|items| - 1], account) + if items[|items| - 1].account == account then [items[|items| - 1]] else []
  }

  /** Batch `n` holds exactly its account's rows, in order. */
  predicate BatchOk(items: seq<Pending>, batch: seq<Pending>)
  {
    batch != [] && batch == OfAccount(items, batch[0].account)
  }

  predicate HasBatch(batches: seq<seq<Pending>>, account: int)
  {
    exists n | 0 <= n < |batches| :: batches[n] != [] && batches[n][0].account == account
  }

  ghost predicate Indexed(indexes: map<int, nat>, batches: seq<seq<Pending>>)
  {
    && (forall a | a in indexes :: indexes[a] < |batches| && batches[indexes[a]] != [] && batches[indexes[a]][0].account == a)
    && (forall n | 0 <= n < |batches| :: batches[n] != [] && batches[n][0].account in indexes && indexes[batches[n][0].account] == n)
  }

  lemma {:induction false} NoneOfAccount(items: seq<Pending>, account: int)
    ensures OfAccount(items, account) == [] <==> forall k | 0 <= k < |items| :: items[k].account != account
  {
    if items != [] { NoneOfAccount(items[..|items| - 1], account); }
  }

  lemma OfAccountNext(items: seq<Pending>, k: nat, account: int)
    requires k < |items|
    ensures OfAccount(items[..k + 1], account) == OfAccount(items[..k], account) + if items[k].account == account then [items[k]] else []
  {
    assert items[..k + 1][..k] == items[..k];
  }

  /** A row joins its account's batch, or starts it, and the others stay. */
  lemma BatchesNext(items: seq<Pending>, k: nat, batches: seq<seq<Pending>>, after: seq<seq<Pending>>, index: nat)
    requires k < |items| && index < |after| && forall n | 0 <= n < |batches| :: BatchOk(items[..k], batches[n])
    requires |after| == |batches| || (|after| == |batches| + 1 && index == |batches|)
    requires forall n | 0 <= n < |batches| && n != index :: after[n] == batches[n] && batches[n] != [] && batches[n][0].account != items[k].account
    requires after[index] == (if index < |batches| then batches[index] else []) + [items[k]]
    requires if index < |batches| then batches[index] != [] && batches[index][0].account == items[k].account else OfAccount(items[..k], items[k].account) == []
    ensures forall n | 0 <= n < |after| :: BatchOk(items[..k + 1], after[n])
  {
    hide OfAccount;
    forall n | 0 <= n < |after| ensures BatchOk(items[..k + 1], after[n]) {
      if n < |batches| { assert BatchOk(items[..k], batches[n]); }
      OfAccountNext(items, k, after[n][0].account);
    }
  }

  lemma BatchesPartition(items: seq<Pending>, indexes: map<int, nat>, batches: seq<seq<Pending>>)
    requires Indexed(indexes, batches) && forall n | 0 <= n < |batches| :: BatchOk(items, batches[n])
    requires forall k | 0 <= k < |items| :: items[k].account in indexes
    ensures forall n | 0 <= n < |batches| :: batches[n] != [] && batches[n] == OfAccount(items, batches[n][0].account)
    ensures forall m, n | 0 <= m < n < |batches| :: batches[m] == [] || batches[n] == [] || batches[m][0].account != batches[n][0].account
    ensures forall k | 0 <= k < |items| :: HasBatch(batches, items[k].account)
  {
    hide OfAccount;
    forall m, n | 0 <= m < n < |batches| ensures batches[m] == [] || batches[n] == [] || batches[m][0].account != batches[n][0].account {
      assert indexes[batches[m][0].account] == m && indexes[batches[n][0].account] == n;
    }
    forall n | 0 <= n < |batches| ensures batches[n] != [] && batches[n] == OfAccount(items, batches[n][0].account) {
      assert BatchOk(items, batches[n]);
    }
    forall k | 0 <= k < |items| ensures HasBatch(batches, items[k].account) {
      var n := indexes[items[k].account];
      assert batches[n] != [] && batches[n][0].account == items[k].account;
    }
  }

  /** groupRecoveryItems: every account with rows has one batch, which holds
      exactly its rows in their listed order. */
  method GroupRecoveryItems(items: seq<Pending>) returns (batches: seq<seq<Pending>>)
    ensures forall n | 0 <= n < |batches| :: batches[n] != [] && batches[n] == OfAccount(items, batches[n][0].account)
    ensures forall m, n | 0 <= m < n < |batches| :: batches[m] == [] || batches[n] == [] || batches[m][0].account != batches[n][0].account
    ensures forall k | 0 <= k < |items| :: HasBatch(batches, items[k].account)
  {
    hide OfAccount;
    var indexes: map<int, nat> := map[];
    batches := [];
    for k := 0 to |items|
      invariant Indexed(indexes, batches)
      invariant forall n | 0 <= n < |batches| :: BatchOk(items[..k], batches[n])
      invariant forall j | 0 <= j < k :: items[j].account in indexes
    {
      var item := items[k];
      var found := item.account in indexes;
      var before := batches;
      if !found {
        indexes := indexes[item.account := |batches|];
        batches := batches + [[]];
      }
      var index := indexes[item.account];
      batches := batches[index := batches[index] + [item]];
      if !found { NoneOfAccount(items[..k], item.account); }
      BatchesNext(items, k, before, batches, index);
    }
    assert items[..|items|] == items;
    BatchesPartition(items, indexes, batches);
  }
}
