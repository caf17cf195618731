/** The versioned policy: who owns a field, when an observation counts, what an action needs. */
module Policy {
  import opened Schema

  const PROPOSAL_TTL: Time := 900 * SECOND
  const APPROVAL_TTL: Time := 300 * SECOND
  const MAX_ATTEMPTS := 4

  function OwnerOf(field: Field): Source {
    match field
    case Email | Phone | Owner | Lifecycle => Crm
    case Score => Scoring
    case Consent => ConsentFeed
    case Suppressed => PrivacyFeed
  }

  /** Position in the ordered list of stages; the event contract admits only stages here. */
  function Rank(value: Value): nat {
    match value
    case AtStage(Lead) => 0
    case AtStage(Mql) => 1
    case AtStage(Sql) => 2
    case AtStage(Opportunity) => 3
    case AtStage(Customer) => 4
    case _ => 0
  }

  function CurrentRank(state: Attributes): nat {
    if Lifecycle in state then Rank(state[Lifecycle]) else Rank(AtStage(Lead))
  }

  function RuleField(source: Source, field: Field, value: Value, row: CustomerRow, sequence: nat): FieldRuling {
    if OwnerOf(field) != source then SourceNotAuthoritative
    else if field in row.provenance && sequence <= row.provenance[field].sequence then StaleSourceSequence
    else if field == Lifecycle && Rank(value) < CurrentRank(row.state) then LifecycleRegression
    else Accepted
  }

  function Truthy(value: Value): bool {
    match value
    case Text(text) => text != ""
    case AtStage(_) => true
    case Number(number) => number != 0
    case Flag(flag) => flag
  }

  datatype Ruling = Ruling(permission: Permission, reason: Reason)

  function RuleAction(action: Action, state: Attributes, revision: nat, expected: nat): Ruling {
    if action == SetConsent then Ruling(Deny, ProtectedWrite)
    else if action == SendMarketing && (Suppressed !in state || Truthy(state[Suppressed])) then
      Ruling(Deny, SuppressedOrUnknown)
    else if action == SendMarketing && Lookup(state, Consent) != Some(Flag(true)) then
      Ruling(Deny, ConsentMissingOrRevoked)
    else if action == SendMarketing && (Email !in state || !Truthy(state[Email])) then
      Ruling(Deny, MissingEmail)
    else if revision != expected then Ruling(Deny, StaleContext)
    else Ruling(if action == SyncProfile then Allow else NeedsApproval, PolicyAllowed)
  }

  // ----- what the decision comes to, in values -----

  /** The values that count as false. */
  const FALSY: set<Value> := {Flag(false), Number(0), Text("")}

  predicate KnownUnsuppressed(state: Attributes) { Suppressed in state && state[Suppressed] in FALSY }
  predicate Consenting(state: Attributes) { Consent in state && state[Consent] == Flag(true) }
  predicate HasEmail(state: Attributes) { Email in state && state[Email] !in FALSY }

  /** Suppression known to be off, consent on record, and somewhere to write to. */
  predicate Contactable(state: Attributes) { KnownUnsuppressed(state) && Consenting(state) && HasEmail(state) }

  /** The closed input contract: flags are flags, texts are texts, and an email is not empty. */
  predicate WellTyped(attributes: Attributes) {
    && (Suppressed in attributes ==> attributes[Suppressed].Flag?)
    && (Consent in attributes ==> attributes[Consent].Flag?)
    && (Email in attributes ==> attributes[Email].Text? && attributes[Email].text != "")
  }

  lemma PermissionMeaning(action: Action, state: Attributes, revision: nat, expected: nat)
    ensures var p := RuleAction(action, state, revision, expected).permission;
      && (p == Allow <==> action == SyncProfile && revision == expected)
      && (p == NeedsApproval <==> action == SendMarketing && Contactable(state) && revision == expected)
    ensures WellTyped(state) ==>
      (Contactable(state) <==>
         Suppressed in state && state[Suppressed] == Flag(false) && Consent in state && state[Consent] == Flag(true)
         && Email in state)
  {
  }
}
