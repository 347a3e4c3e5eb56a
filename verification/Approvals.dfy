/**
 * Assembling the signatures of an approved withdrawal: exactly when it succeeds, what it produces,
 * and how often it happens for one request over a whole log.
 */
module Approvals {
  import opened Options
  import opened Ordered
  import opened Multispend
  import opened GroupInvariants

  // ---------------------------------------------------------------- the signature map

  /** Every member of a finalized group is found in its account by the key it gave. */
  ghost predicate AccountHoldsMemberKeys(group: FinalizedGroup) {
    group.account.pubKeys == group.pubkeys.Values && group.account.threshold == group.invitation.threshold
  }

  lemma ConsistentGroupHoldsKeys(env: Env, t: Tables)
    requires Consistent(env, t) && FinalizedGroupOf(t).Some?
    ensures AccountHoldsMemberKeys(FinalizedGroupOf(t).value)
    ensures |FinalizedGroupOf(t).value.pubkeys| == |FinalizedGroupOf(t).value.invitation.signers|
  {
  }

  lemma KeyIndexMeaning(group: FinalizedGroup, user: UserId)
    requires AccountHoldsMemberKeys(group)
    ensures KeyIndex(group, user).Some? <==> user in group.pubkeys
    ensures user in group.pubkeys ==>
              var i := KeyIndex(group, user).value;
              i < |group.account.pubKeys| && Ascending(group.account.pubKeys)[i] == group.pubkeys[user]
  {
  }

  /** Both `expect`s of the handler hold exactly when every approver has a key in the group. */
  lemma SignatureMapDefinedIff(group: FinalizedGroup, signatures: map<UserId, Signature>)
    requires AccountHoldsMemberKeys(group)
    ensures SignatureMap(group, signatures).Some? <==> signatures.Keys <= group.pubkeys.Keys
  {
    hide KeyIndex;
    forall u ensures KeyIndex(group, u).Some? <==> u in group.pubkeys {
      KeyIndexMeaning(group, u);
    }
  }

  ghost predicate DistinctKeys(group: FinalizedGroup, users: set<UserId>)
    requires users <= group.pubkeys.Keys
  {
    forall u, v :: u in users && v in users && u != v ==> group.pubkeys[u] != group.pubkeys[v]
  }

  /** Index `i` of the account is the key of some approver, and `signature` is that approver's. */
  ghost predicate SignedAt(group: FinalizedGroup, signatures: map<UserId, Signature>, i: nat, signature: Signature) {
    exists u :: u in signatures && u in group.pubkeys && signature == signatures[u]
                && i < |group.account.pubKeys| && Ascending(group.account.pubKeys)[i] == group.pubkeys[u]
  }

  lemma DistinctKeysGiveDistinctPairs(group: FinalizedGroup, signatures: map<UserId, Signature>, users: seq<UserId>)
    requires AccountHoldsMemberKeys(group) && users == Ascending(signatures.Keys)
    requires signatures.Keys <= group.pubkeys.Keys && AllIndexed(group, signatures.Keys)
    requires DistinctKeys(group, signatures.Keys)
    ensures DistinctFirsts(SignaturePairs(group, signatures, users))
  {
    hide KeyIndex;
    hide Ascending;
    var pairs := SignaturePairs(group, signatures, users);
    forall j, k | 0 <= j < k < |pairs| ensures pairs[j].0 != pairs[k].0 {
      var u, v := users[j], users[k];
      assert u in signatures.Keys && v in signatures.Keys && u < v;
      KeyIndexMeaning(group, u);
      KeyIndexMeaning(group, v);
    }
  }

  lemma RepeatedKeyRepeatsPair(group: FinalizedGroup, signatures: map<UserId, Signature>, users: seq<UserId>)
    requires AccountHoldsMemberKeys(group) && users == Ascending(signatures.Keys)
    requires signatures.Keys <= group.pubkeys.Keys && AllIndexed(group, signatures.Keys)
    requires !DistinctKeys(group, signatures.Keys)
    ensures !DistinctFirsts(SignaturePairs(group, signatures, users))
  {
    hide KeyIndex;
    hide Ascending;
    hide SignaturePairs;
    hide DistinctFirsts;
    var u, v :| u in signatures.Keys && v in signatures.Keys && u != v && group.pubkeys[u] == group.pubkeys[v];
    SameKeySameIndex(group, u, v);
    assert u in users && v in users;
    var j :| 0 <= j < |users| && users[j] == u;
    var k :| 0 <= k < |users| && users[k] == v;
    RepeatIsNotDistinct(SignaturePairs(group, signatures, users), j, k);
  }

  lemma RepeatIsNotDistinct(pairs: seq<(nat, Signature)>, j: nat, k: nat)
    requires j < |pairs| && k < |pairs| && j != k && pairs[j].0 == pairs[k].0
    ensures !DistinctFirsts(pairs)
  {
    var first, second := if j < k then j else k, if j < k then k else j;
    assert first < second && pairs[first].0 == pairs[second].0;
  }

  lemma SameKeySameIndex(group: FinalizedGroup, u: UserId, v: UserId)
    requires u in group.pubkeys && v in group.pubkeys
    ensures group.pubkeys[u] == group.pubkeys[v] ==> KeyIndex(group, u) == KeyIndex(group, v)
  {
  }

  /**
   * The signed request of an approved withdrawal holds an approver's signature at that approver's
   * key index, every index inside the account, and it holds as many as there are approvers if and
   * only if no two approvers gave the same key.
   */
  lemma SignatureMapMeaning(group: FinalizedGroup, signatures: map<UserId, Signature>)
    requires AccountHoldsMemberKeys(group) && signatures.Keys <= group.pubkeys.Keys
    ensures SignatureMap(group, signatures).Some?
    ensures var indexed := SignatureMap(group, signatures).value;
            && (forall i :: i in indexed ==> SignedAt(group, signatures, i, indexed[i]))
            && (forall u :: u in signatures ==> KeyIndex(group, u).Some? && KeyIndex(group, u).value in indexed)
            && |indexed| <= |signatures|
            && (|indexed| == |signatures| <==> DistinctKeys(group, signatures.Keys))
  {
    hide KeyIndex;
    hide Ascending;
    SignatureMapDefinedIff(group, signatures);
    var users := Ascending(signatures.Keys);
    var pairs := SignaturePairs(group, signatures, users);
    var indexed := SignatureMap(group, signatures).value;
    FromPairsHolds(pairs);
    FromPairsSize(pairs);
    if DistinctKeys(group, signatures.Keys) {
      DistinctKeysGiveDistinctPairs(group, signatures, users);
    } else {
      RepeatedKeyRepeatsPair(group, signatures, users);
    }
    assert |signatures| == |signatures.Keys| == |pairs|;
    forall i | i in indexed ensures SignedAt(group, signatures, i, indexed[i]) {
      var k :| 0 <= k < |pairs| && pairs[k] == (i, indexed[i]);
      KeyIndexMeaning(group, users[k]);
      assert users[k] in signatures;
    }
    forall u | u in signatures ensures KeyIndex(group, u).Some? && KeyIndex(group, u).value in indexed {
      assert u in users;
      var k :| 0 <= k < |users| && users[k] == u;
      assert pairs[k].0 in indexed;
    }
  }

  // ---------------------------------------------------------------- whether the request can be signed

  function KeysOf(group: FinalizedGroup, users: set<UserId>): set<PubKey> {
    set u | u in users && u in group.pubkeys :: group.pubkeys[u]
  }

  /** Of approvers with the same key, the last one's signature stands. */
  predicate Stands(group: FinalizedGroup, users: set<UserId>, u: UserId) {
    && u in users && u in group.pubkeys
    && forall v :: v in users && v in group.pubkeys && v > u ==> group.pubkeys[v] != group.pubkeys[u]
  }

  /** What it takes for an approved request to be signed, in terms of its approvers. */
  ghost predicate Signed(
      env: Env, group: FinalizedGroup, request: TransferRequest, signatures: map<UserId, Signature>) {
    && signatures.Keys <= group.pubkeys.Keys
    && |KeysOf(group, signatures.Keys)| >= request.from.threshold
    && forall u :: Stands(group, signatures.Keys, u) ==>
         KeyIndex(group, u).Some? && VerifiesAt(env, request, KeyIndex(group, u).value, signatures[u])
  }

  lemma StandingIsIndexed(group: FinalizedGroup, signatures: map<UserId, Signature>, u: UserId)
    requires AccountHoldsMemberKeys(group) && signatures.Keys <= group.pubkeys.Keys
    requires Stands(group, signatures.Keys, u)
    ensures SignatureMap(group, signatures).Some? && KeyIndex(group, u).Some?
    ensures var indexed, i := SignatureMap(group, signatures).value, KeyIndex(group, u).value;
            i in indexed && indexed[i] == signatures[u]
  {
    hide KeyIndex;
    hide Ascending;
    hide FromPairs;
    SignatureMapDefinedIff(group, signatures);
    var users := Ascending(signatures.Keys);
    var pairs := SignaturePairs(group, signatures, users);
    assert u in users;
    var k :| 0 <= k < |users| && users[k] == u;
    KeyIndexMeaning(group, u);
    forall j | k < j < |pairs| ensures pairs[j].0 != pairs[k].0 {
      assert users[j] in users && users[j] > u;
      KeyIndexMeaning(group, users[j]);
    }
    FromPairsLast(pairs, k);
  }

  /** The last approver whose key is at this place in the account. */
  lemma {:induction false} LastWithKey(group: FinalizedGroup, users: set<UserId>, u: UserId) returns (last: UserId)
    requires u in users && users <= group.pubkeys.Keys
    ensures Stands(group, users, last) && group.pubkeys[last] == group.pubkeys[u]
    decreases set v | v in users && v > u
  {
    if Stands(group, users, u) {
      last := u;
    } else {
      var v :| v in users && v > u && group.pubkeys[v] == group.pubkeys[u];
      var later, latest := set w | w in users && w > u, set w | w in users && w > v;
      assert v in later && latest <= later && v !in latest;
      last := LastWithKey(group, users, v);
    }
  }

  lemma IndexedIsStanding(group: FinalizedGroup, signatures: map<UserId, Signature>, i: nat) returns (u: UserId)
    requires AccountHoldsMemberKeys(group) && signatures.Keys <= group.pubkeys.Keys
    requires SignatureMap(group, signatures).Some? && i in SignatureMap(group, signatures).value
    ensures Stands(group, signatures.Keys, u) && KeyIndex(group, u) == Some(i)
    ensures SignatureMap(group, signatures).value[i] == signatures[u]
  {
    hide KeyIndex;
    hide Stands;
    hide Ascending;
    hide FromPairs;
    var users := Ascending(signatures.Keys);
    var pairs := SignaturePairs(group, signatures, users);
    FromPairsHolds(pairs);
    var k :| 0 <= k < |pairs| && pairs[k] == (i, FromPairs(pairs)[i]);
    assert users[k] in users;
    u := LastWithKey(group, signatures.Keys, users[k]);
    assert u in signatures.Keys by { StandingIsUser(group, signatures.Keys, u); }
    SameKeySameIndex(group, users[k], u);
    StandingIsIndexed(group, signatures, u);
  }

  lemma StandingIsUser(group: FinalizedGroup, users: set<UserId>, u: UserId)
    requires Stands(group, users, u)
    ensures u in users
  {
  }

  /** An index of the assembled map is the place of some approver's key. */
  lemma IndexHasKey(group: FinalizedGroup, signatures: map<UserId, Signature>, i: nat)
    requires AccountHoldsMemberKeys(group) && signatures.Keys <= group.pubkeys.Keys
    requires SignatureMap(group, signatures).Some? && i in SignatureMap(group, signatures).value
    ensures var list := Ascending(group.account.pubKeys);
            i < |list| && list[i] in KeysOf(group, signatures.Keys)
  {
    hide SignatureMap;
    hide KeyIndex;
    hide Ascending;
    hide Stands;
    var u := IndexedIsStanding(group, signatures, i);
    StandingIsUser(group, signatures.Keys, u);
    KeyIndexMeaning(group, u);
  }

  lemma KeyHasIndex(group: FinalizedGroup, signatures: map<UserId, Signature>, key: PubKey) returns (i: nat)
    requires AccountHoldsMemberKeys(group) && signatures.Keys <= group.pubkeys.Keys
    requires SignatureMap(group, signatures).Some? && key in KeysOf(group, signatures.Keys)
    ensures var list := Ascending(group.account.pubKeys);
            i in SignatureMap(group, signatures).value && i < |list| && list[i] == key
  {
    hide SignatureMap;
    hide KeyIndex;
    hide Ascending;
    hide SignedAt;
    hide DistinctKeys;
    var u :| u in signatures.Keys && group.pubkeys[u] == key;
    SignatureMapMeaning(group, signatures);
    KeyIndexMeaning(group, u);
    i := KeyIndex(group, u).value;
  }

  /** The assembled map has one entry for each key among the approvers. */
  lemma OneEntryPerKey(group: FinalizedGroup, signatures: map<UserId, Signature>)
    requires AccountHoldsMemberKeys(group) && signatures.Keys <= group.pubkeys.Keys
    ensures SignatureMap(group, signatures).Some?
    ensures |SignatureMap(group, signatures).value| == |KeysOf(group, signatures.Keys)|
  {
    hide SignatureMap;
    hide KeysOf;
    hide Ascending;
    SignatureMapDefinedIff(group, signatures);
    var indexed, list := SignatureMap(group, signatures).value, Ascending(group.account.pubKeys);
    forall i | i in indexed.Keys ensures i < |list| {
      IndexHasKey(group, signatures, i);
    }
    ImageSize(indexed.Keys, list);
    var image := set i | i in indexed.Keys :: list[i];
    forall key ensures key in image <==> key in KeysOf(group, signatures.Keys) {
      if key in image {
        var i :| i in indexed.Keys && list[i] == key;
        IndexHasKey(group, signatures, i);
      }
      if key in KeysOf(group, signatures.Keys) {
        var i := KeyHasIndex(group, signatures, key);
        assert i in indexed.Keys;
      }
    }
    assert image == KeysOf(group, signatures.Keys);
    assert |indexed| == |indexed.Keys|;
  }

  /**
   * The signed request can be assembled exactly when every approver has a key, the approvers have at
   * least as many different keys as the account drawn on demands, and the signatures that stand verify.
   */
  lemma RowDefinedIff(env: Env, r: EventId, w: Withdrawal, group: FinalizedGroup)
    requires AccountHoldsMemberKeys(group)
    ensures RowFor(env, r, w, group).Some? <==> Signed(env, group, w.request, w.signatures)
  {
    hide SignatureMap;
    hide KeyIndex;
    hide VerifiesAt;
    hide Stands;
    hide KeysOf;
    SignatureMapDefinedIff(group, w.signatures);
    if w.signatures.Keys <= group.pubkeys.Keys {
      OneEntryPerKey(group, w.signatures);
      var indexed := SignatureMap(group, w.signatures).value;
      if Signed(env, group, w.request, w.signatures) {
        forall i | i in indexed ensures VerifiesAt(env, w.request, i, indexed[i]) {
          var u := IndexedIsStanding(group, w.signatures, i);
        }
      }
      if RowFor(env, r, w, group).Some? {
        forall u | Stands(group, w.signatures.Keys, u)
          ensures u in w.signatures && KeyIndex(group, u).Some?
          ensures VerifiesAt(env, w.request, KeyIndex(group, u).value, w.signatures[u])
        {
          StandingIsUser(group, w.signatures.Keys, u);
          StandingIsIndexed(group, w.signatures, u);
        }
      }
    }
  }

  /** Every signature verifies under its approver's own key. */
  ghost predicate AllVerify(
      env: Env, group: FinalizedGroup, request: TransferRequest, signatures: map<UserId, Signature>) {
    forall u :: u in signatures ==> u in group.pubkeys && env.verifies(request, group.pubkeys[u], signatures[u])
  }

  /**
   * A request that draws on the group's own account, approved by exactly threshold signers, can be signed
   * if and only if each approver has a key, no two of them the same one, and each one's signature verifies.
   */
  lemma OwnSignedIff(env: Env, group: FinalizedGroup, request: TransferRequest, signatures: map<UserId, Signature>)
    requires AccountHoldsMemberKeys(group) && request.from == group.account
    requires |signatures| == group.invitation.threshold
    ensures Signed(env, group, request, signatures) <==>
              && signatures.Keys <= group.pubkeys.Keys && DistinctKeys(group, signatures.Keys)
              && AllVerify(env, group, request, signatures)
  {
    hide SignatureMap;
    hide KeyIndex;
    hide Ascending;
    hide SignedAt;
    if signatures.Keys <= group.pubkeys.Keys {
      SignatureMapMeaning(group, signatures);
      OneEntryPerKey(group, signatures);
      hide KeysOf;
      forall u | u in signatures
        ensures KeyIndex(group, u).Some?
        ensures VerifiesAt(env, request, KeyIndex(group, u).value, signatures[u])
                <==> env.verifies(request, group.pubkeys[u], signatures[u])
      {
        KeyIndexMeaning(group, u);
      }
      if DistinctKeys(group, signatures.Keys) {
        forall u | u in signatures ensures Stands(group, signatures.Keys, u) {
        }
      }
    }
  }
}
