/** What a purge by age takes away and what it leaves, told by observation times
    alone. */
module IndexerPurge {
  import opened Common
  import opened IndexerTypes
  import opened IndexerDedupe
  import opened IndexerStore
  import opened IndexerEngine

  /** Longer ago than a transaction lives; with a lifetime of zero it lives for ever. */
  predicate TooOld(c: Config, now: uint64, tx: Transaction) {
    c.transactionTtlMs != 0 && now > tx.observedAtMs + c.transactionTtlMs
  }

  /** `n` is how many too old transactions stand at the front. */
  predicate OldFront(c: Config, now: uint64, txs: seq<Transaction>, n: nat) {
    && n <= |txs|
    && (forall i :: 0 <= i < n ==> TooOld(c, now, txs[i]))
    && (n < |txs| ==> !TooOld(c, now, txs[n]))
  }

  lemma {:induction false} CountIsOldFront(c: Config, now: uint64, txs: seq<Transaction>)
    ensures OldFront(c, now, txs, ExpiredCount(c, now, txs))
  {
    var n := ExpiredCount(c, now, txs);
    if n > 0 {
      CountIsOldFront(c, now, txs[1..]);
      assert forall i :: 1 <= i < n ==> txs[i] == txs[1..][i - 1];
      assert n < |txs| ==> txs[n] == txs[1..][n - 1];
    }
  }

  /** The matches at the places `at`, in order, are those that name none of the ids. */
  ghost predicate PicksOthers(all: seq<Match>, ids: seq<string>, at: seq<nat>) {
    && (forall i, j :: 0 <= i < j < |at| ==> at[i] < at[j])
    && (forall i :: 0 <= i < |at| ==> at[i] < |all|)
    && (forall p :: 0 <= p < |all| ==> (p in at <==> all[p].txid !in ids))
  }

  ghost predicate KeepsOthers(all: seq<Match>, ids: seq<string>, kept: seq<Match>) {
    exists at: seq<nat> :: PicksOthers(all, ids, at) && |at| == |kept| && forall i :: 0 <= i < |kept| ==> kept[i] == all[at[i]]
  }

  /** The places of `WithoutTxids` in the whole list. */
  function KeptPlaces(all: seq<Match>, ids: seq<string>, from: nat): (at: seq<nat>)
    requires from <= |all|
    ensures forall i :: 0 <= i < |at| ==> from <= at[i] < |all|
    decreases |all| - from
  {
    if from == |all| then []
    else (if all[from].txid in ids then [] else [from]) + KeptPlaces(all, ids, from + 1)
  }

  lemma {:induction false} PlacesPick(all: seq<Match>, ids: seq<string>, from: nat)
    requires from <= |all|
    ensures var at := KeptPlaces(all, ids, from);
            && (forall i, j :: 0 <= i < j < |at| ==> at[i] < at[j])
            && (forall p :: from <= p < |all| ==> (p in at <==> all[p].txid !in ids))
    decreases |all| - from
  {
    if from < |all| { PlacesPick(all, ids, from + 1); }
  }

  /** What stands at the places. */
  function Pick(all: seq<Match>, at: seq<nat>): (picked: seq<Match>)
    requires forall i :: 0 <= i < |at| ==> at[i] < |all|
    ensures |picked| == |at| && forall i :: 0 <= i < |at| ==> picked[i] == all[at[i]]
  {
    seq(|at|, i requires 0 <= i < |at| => all[at[i]])
  }

  lemma WithoutFrom(all: seq<Match>, ids: seq<string>, from: nat)
    requires from < |all|
    ensures WithoutTxids(all[from..], ToSet(ids))
         == (if all[from].txid in ids then [] else [all[from]]) + WithoutTxids(all[from + 1..], ToSet(ids))
  {
    var rest := all[from..];
    assert rest[1..] == all[from + 1..] && rest[0] == all[from];
    assert all[from].txid in ids <==> all[from].txid in ToSet(ids);
  }

  lemma PickCons(all: seq<Match>, place: nat, at: seq<nat>, rest: seq<Match>)
    requires place < |all| && (forall i :: 0 <= i < |at| ==> at[i] < |all|) && rest == Pick(all, at)
    ensures [all[place]] + rest == Pick(all, [place] + at)
  {
  }

  lemma {:induction false} PickedAreKept(all: seq<Match>, ids: seq<string>, from: nat)
    requires from <= |all|
    ensures WithoutTxids(all[from..], ToSet(ids)) == Pick(all, KeptPlaces(all, ids, from))
    decreases |all| - from
  {
    hide Pick, ToSet;
    if from < |all| {
      WithoutFrom(all, ids, from);
      hide WithoutTxids;
      PickedAreKept(all, ids, from + 1);
      var at := KeptPlaces(all, ids, from + 1);
      if all[from].txid !in ids { PickCons(all, from, at, WithoutTxids(all[from + 1..], ToSet(ids))); }
    }
  }

  lemma WithoutKeepsOthers(all: seq<Match>, ids: seq<string>)
    ensures KeepsOthers(all, ids, WithoutTxids(all, ToSet(ids)))
  {
    PlacesPick(all, ids, 0);
    PickedAreKept(all, ids, 0);
    assert all[0..] == all;
    assert PicksOthers(all, ids, KeptPlaces(all, ids, 0));
  }

  /** A purge drops exactly the transactions at the front that are too old and
      answers their ids in order; of the matches it drops exactly those of what it
      dropped; it touches nothing else. */
  lemma PurgesExactlyTheOldFront(c: Config, s: Store, now: uint64)
    ensures var (t, ids) := PurgeExpired(c, s, now);
            var n := |ids|;
            && OldFront(c, now, s.txs, n) && t.txs == s.txs[n..]
            && (forall i :: 0 <= i < n ==> ids[i] == s.txs[i].txid)
            && KeepsOthers(s.matches, ids, t.matches)
            && t.blocks == s.blocks && t.pending == s.pending
  {
    CountIsOldFront(c, now, s.txs);
    WithoutKeepsOthers(s.matches, PurgeExpired(c, s, now).1);
  }

  /** Transactions are stored in the order of their observation. */
  predicate ObservedInOrder(txs: seq<Transaction>) {
    forall i, j :: 0 <= i < j < |txs| ==> txs[i].observedAtMs <= txs[j].observedAtMs
  }

  /** Nothing too old is left, exactly when nothing too old stands behind what is
      not; so it is whenever transactions are stored in the order of observation. */
  lemma NothingOldIsLeft(c: Config, s: Store, now: uint64)
    ensures var left := PurgeExpired(c, s, now).0.txs;
            (forall k :: 0 <= k < |left| ==> !TooOld(c, now, left[k]))
            <==> forall i, j :: 0 <= i < j < |s.txs| && TooOld(c, now, s.txs[j]) ==> TooOld(c, now, s.txs[i])
    ensures ObservedInOrder(s.txs) ==>
              forall i, j :: 0 <= i < j < |s.txs| && TooOld(c, now, s.txs[j]) ==> TooOld(c, now, s.txs[i])
  {
    hide PurgeExpired, TooOld, KeepsOthers;
    PurgesExactlyTheOldFront(c, s, now);
    var (t, ids) := PurgeExpired(c, s, now);
    var n := |ids|;
    assert forall k :: 0 <= k < |t.txs| ==> t.txs[k] == s.txs[n + k];
    assert forall i :: n <= i < |s.txs| ==> s.txs[i] == t.txs[i - n];
    if ObservedInOrder(s.txs) {
      forall i, j | 0 <= i < j < |s.txs| && TooOld(c, now, s.txs[j]) ensures TooOld(c, now, s.txs[i]) {
        OlderIsTooOld(c, now, s.txs[i], s.txs[j]);
      }
    }
  }

  lemma OlderIsTooOld(c: Config, now: uint64, older: Transaction, tx: Transaction)
    requires older.observedAtMs <= tx.observedAtMs && TooOld(c, now, tx)
    ensures TooOld(c, now, older)
  {
  }

  /** The engine reports one eviction by age for each transaction that went, in
      order, and changes nothing but its store and its events. */
  lemma PurgeReportsEach(e: Engine, now: uint64)
    ensures var p := Purge(e, now);
            var n := |e.store.txs| - |p.store.txs|;
            && n >= 0 && OldFront(e.config, now, e.store.txs, n) && p.store.txs == e.store.txs[n..]
            && p == e.(store := p.store, events := p.events)
            && e.events <= p.events && |p.events| == |e.events| + n
            && (forall k :: 0 <= k < n ==>
                  p.events[|e.events| + k] == Evicted(Eviction(TransactionTtl, e.store.txs[k].txid, None)))
  {
    hide PurgeExpired, KeepsOthers, TooOld;
    PurgesExactlyTheOldFront(e.config, e.store, now);
  }

  /** Every accepted record first purges by its own time. */
  lemma IngestPurgesFirst(e: Engine, tx: Transaction, block: Block, order: seq<Matcher>)
    ensures e.config.Admits(tx) ==> Purge(e, tx.observedAtMs).events <= IngestTransaction(e, tx, order).0.events
    ensures !Blank(block.hash) ==> Purge(e, block.observedAtMs).events <= IngestBlock(e, block).0.events
  {
    hide Purge, Scan;
    var seen := Purge(e, tx.observedAtMs).(recent := Observe(Purge(e, tx.observedAtMs).recent, e.config.dedupeWindow, tx.txid).0);
    var matches := Scan(tx, order);
    PublishGrows(Retain(seen, tx, matches != []), matches);
  }

  lemma {:induction false} PublishGrows(e: Engine, matches: seq<Match>)
    ensures e.events <= Publish(e, matches).events
    decreases matches
  {
    if matches != [] { PublishGrows(PublishOne(e, matches[0]), matches[1..]); }
  }
}
