/** The durable intent that serializes publication of one finding as an issue (github.py). */
module IssueIntents {
  import opened Wrappers

  datatype Receipt = Receipt(number: nat, reconciled: bool)

  /** `_IssueIntentRecord`; a Firestore document with status COMPLETE is a record that holds a receipt. */
  datatype Intent = Intent(owner: Option<nat>, expiresAt: int, receipt: Option<Receipt>)

  datatype IntentClaim = IntentClaim(acquired: bool, receipt: Option<Receipt>)

  datatype Completion = Durable(receipt: Receipt) | OwnershipChanged

  function AsReconciled(r: Receipt): Receipt {
    r.(reconciled := true)
  }

  predicate Owned(current: Option<Intent>, owner: nat) {
    current.Some? && current.value.receipt.None? && current.value.owner == Some(owner)
  }

  /** `claim_issue_intent`. */
  function ClaimIntent(current: Option<Intent>, owner: nat, now: int, seconds: int): (Option<Intent>, IntentClaim) {
    if current.Some? && current.value.receipt.Some? then
      (current, IntentClaim(false, Some(AsReconciled(current.value.receipt.value))))
    else if current.Some? && current.value.owner != Some(owner) && current.value.expiresAt > now then
      (current, IntentClaim(false, None))
    else (Some(Intent(Some(owner), now + seconds, None)), IntentClaim(true, None))
  }

  /** `complete_issue_intent`: the first completed receipt wins. */
  function CompleteIntent(current: Option<Intent>, owner: nat, receipt: Receipt): (Option<Intent>, Completion) {
    if current.Some? && current.value.receipt.Some? then
      (current, Durable(AsReconciled(current.value.receipt.value)))
    else if current.None? || current.value.owner != Some(owner) then (current, OwnershipChanged)
    else (Some(Intent(None, 0, Some(receipt))), Durable(receipt))
  }

  /** `release_issue_intent`. */
  function ReleaseIntent(current: Option<Intent>, owner: nat): Option<Intent> {
    if Owned(current, owner) then None else current
  }

  /** The three dictionary operations of `InMemoryGitHubStore`, on intents keyed by finding fingerprint. */
  class InMemoryIntents {
    var intents: map<string, Intent>

    function At(fingerprint: string): Option<Intent>
      reads this
    {
      if fingerprint in intents then Some(intents[fingerprint]) else None
    }

    constructor ()
      ensures intents == map[]
    {
      intents := map[];
    }

    method Claim(fingerprint: string, owner: nat, now: int, seconds: int) returns (claim: IntentClaim)
      modifies this
      ensures (At(fingerprint), claim) == ClaimIntent(old(At(fingerprint)), owner, now, seconds)
      ensures forall other :: other != fingerprint ==> At(other) == old(At(other))
    {
      if fingerprint in intents {
        var current := intents[fingerprint];
        if current.receipt.Some? {
          return IntentClaim(false, Some(AsReconciled(current.receipt.value)));
        }
        if current.owner != Some(owner) && current.expiresAt > now {
          return IntentClaim(false, None);
        }
      }
      intents := intents[fingerprint := Intent(Some(owner), now + seconds, None)];
      return IntentClaim(true, None);
    }

    method Complete(fingerprint: string, owner: nat, receipt: Receipt) returns (completion: Completion)
      modifies this
      ensures (At(fingerprint), completion) == CompleteIntent(old(At(fingerprint)), owner, receipt)
      ensures forall other :: other != fingerprint ==> At(other) == old(At(other))
    {
      if fingerprint in intents && intents[fingerprint].receipt.Some? {
        return Durable(AsReconciled(intents[fingerprint].receipt.value));
      }
      if fingerprint !in intents || intents[fingerprint].owner != Some(owner) {
        return OwnershipChanged;
      }
      intents := intents[fingerprint := Intent(None, 0, Some(receipt))];
      return Durable(receipt);
    }

    method Release(fingerprint: string, owner: nat)
      modifies this
      ensures At(fingerprint) == ReleaseIntent(old(At(fingerprint)), owner)
      ensures forall other :: other != fingerprint ==> At(other) == old(At(other))
    {
      if fingerprint in intents && intents[fingerprint].receipt.None? && intents[fingerprint].owner == Some(owner) {
        intents := intents - {fingerprint};
      }
    }
  }
}
