/** The InvitationCode schema (backend/src/models/InvitationCode.js): a
    required, unique, trimmed code; `isUsed` false and `usedBy` null by
    default; a creation time after which MongoDB's TTL index removes the
    code. */
module InvitationModel {
  import opened Json

  /** A stored code. `usedBy` is the id of the user who consumed it. */
  datatype InvitationCode = InvitationCode(code: string, isUsed: bool, usedBy: Option<nat>, createdAt: int)

  /** `expires: 7 * 24 * 60 * 60`, in seconds. */
  const LifetimeSeconds: int := 7 * 24 * 60 * 60

  /** `new InvitationCode({ code })` saved at time `now`: the code trimmed,
      the defaults for the rest, or `None` when `required` fails. */
  function New(code: string, now: int): (r: Option<InvitationCode>)
    ensures r.Some? <==> Trim(code) != []
    ensures r.Some? ==>
      && r.value.code == Trim(code) && IsTrimmed(r.value.code)
      && !r.value.isUsed && r.value.usedBy.None? && r.value.createdAt == now
  {
    TrimSpec(code);
    if Trim(code) == [] then None
    else Some(InvitationCode(Trim(code), false, None, now))
  }

  /** The TTL index has made the code eligible for removal at `now`. */
  predicate Expired(c: InvitationCode, now: int) {
    c.createdAt + LifetimeSeconds <= now
  }

  /** A new code is not expired when it is created, and becomes expired
      exactly 604800 seconds (seven days) later. */
  lemma NewCodeExpiry(code: string, created: int, now: int)
    requires New(code, created).Some?
    ensures !Expired(New(code, created).value, created)
    ensures Expired(New(code, created).value, now) <==> now >= created + 604800
  {
  }
}
