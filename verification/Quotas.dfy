/** tutor/quotas.py: who is capped, and when the message cap is reached. */
module Quotas {
  import opened Catalog
  import opened Store

  /** Deployment: who is capped (the BYOK tier), and at how many messages per session. */
  datatype Env = Env(capped: set<string>, cap: nat)

  function TierOf(env: Env, user: string): Tier {
    if user in env.capped then ByokTier else Homelab
  }

  ghost predicate UnderQuota(env: Env, user: string, s: Session) {
    user in env.capped ==> NextSeq(s) <= env.cap
  }
}
