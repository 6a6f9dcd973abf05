/** Shared vocabulary (src/asm/domain/enums.py). */
module Domain {
  /** Token and trader addresses. */
  type Mint = string
  type Wallet = string

  /** Lifecycle of a copied trader. */
  datatype TraderStatus =
    Discovered | Analyzing | Candidate | Probation | Active | Degraded | Suspended | Blacklisted

  predicate Followed(status: TraderStatus) { status == Probation || status == Active }

  predicate Distrusted(status: TraderStatus) {
    status == Degraded || status == Suspended || status == Blacklisted
  }
}
