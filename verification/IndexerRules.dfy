/** What the matchers' rules mean, and what a scan finds (src/indexer/matcher/mod.rs, src/indexer/scanner/mod.rs). */
module IndexerRules {
  import opened Common
  import opened IndexerTypes

  /** The payload is cut into what comes before the value, the value, and the rest. */
  predicate Cut(payload: seq<byte>, before: seq<byte>, value: seq<byte>, rest: seq<byte>) {
    payload == before + value + rest
  }

  /** A rule on payloads matches exactly when the payload can be cut around its
      value, with nothing before it, nothing after it, or neither, as it asks. */
  lemma PayloadRulesMean(rule: MatchRule, tx: Transaction)
    requires !rule.Address?
    ensures rule.Matches(tx) <==>
            exists before, rest :: Cut(tx.payload, before, rule.value, rest)
              && (rule.PayloadPrefix? || rule.PayloadExact? ==> before == [])
              && (rule.PayloadSuffix? || rule.PayloadExact? ==> rest == [])
  {
    var p, v := tx.payload, rule.value;
    if rule.Matches(tx) {
      var at := StartOf(rule, tx);
      assert p == p[..at] + p[at..at + |v|] + p[at + |v|..];
      assert Cut(p, p[..at], v, p[at + |v|..]);
    }
    forall before, rest | Cut(p, before, v, rest)
      && (rule.PayloadPrefix? || rule.PayloadExact? ==> before == []) && (rule.PayloadSuffix? || rule.PayloadExact? ==> rest == [])
      ensures rule.Matches(tx)
    {
      CutMatches(rule, tx, before, rest);
    }
  }

  lemma CutMatches(rule: MatchRule, tx: Transaction, before: seq<byte>, rest: seq<byte>)
    requires !rule.Address? && Cut(tx.payload, before, rule.value, rest)
    requires rule.PayloadPrefix? || rule.PayloadExact? ==> before == []
    requires rule.PayloadSuffix? || rule.PayloadExact? ==> rest == []
    ensures rule.Matches(tx)
  {
    var p, v := tx.payload, rule.value;
    assert p[|before|..|before| + |v|] == v;
    match rule
    case PayloadPrefix(_) => assert p[..|v|] == v;
    case PayloadContains(_) => assert WindowAt(p, |before|, v);
    case PayloadExact(_) => assert [] + v + [] == v;
    case PayloadSuffix(_) => assert p[|p| - |v|..] == v;
  }

  /** Where the value of a rule that matches begins. */
  ghost function StartOf(rule: MatchRule, tx: Transaction): (at: nat)
    requires !rule.Address? && rule.Matches(tx)
    ensures at + |rule.value| <= |tx.payload| && tx.payload[at..at + |rule.value|] == rule.value
    ensures rule.PayloadPrefix? || rule.PayloadExact? ==> at == 0
    ensures rule.PayloadSuffix? || rule.PayloadExact? ==> at + |rule.value| == |tx.payload|
  {
    match rule
    case PayloadPrefix(_) => 0
    case PayloadContains(value) =>
      var at :| 0 <= at <= |tx.payload| && WindowAt(tx.payload, at, value);
      at
    case PayloadExact(_) => 0
    case PayloadSuffix(value) => |tx.payload| - |value|
  }

  /** The matches of a scan are those of the matchers whose rule matches, in their
      order, each with the transaction's id and time. */
  lemma {:induction false} ScanFindsExactly(tx: Transaction, matchers: seq<Matcher>)
    ensures forall m :: m in Scan(tx, matchers) <==>
              exists i :: 0 <= i < |matchers| && matchers[i].rule.Matches(tx) && m == Match(matchers[i].id, tx.txid, tx.observedAtMs)
  {
    if matchers != [] {
      var rest := matchers[1..];
      ScanFindsExactly(tx, rest);
      forall m
        ensures m in Scan(tx, matchers) <==>
                exists i :: 0 <= i < |matchers| && matchers[i].rule.Matches(tx) && m == Match(matchers[i].id, tx.txid, tx.observedAtMs)
      {
        if m in Scan(tx, rest) {
          var i :| 0 <= i < |rest| && rest[i].rule.Matches(tx) && m == Match(rest[i].id, tx.txid, tx.observedAtMs);
          assert matchers[i + 1] == rest[i];
        }
        forall i | 0 <= i < |matchers| && matchers[i].rule.Matches(tx) && m == Match(matchers[i].id, tx.txid, tx.observedAtMs)
          ensures m in Scan(tx, matchers)
        {
          if i > 0 { assert rest[i - 1] == matchers[i]; }
        }
      }
    }
  }
}
