/** Identifiers shared by every component (crates/polywan/src/model.rs). */
module Model {

  datatype Option<+T> = None | Some(value: T)

  datatype Family = V4 | V6

  /** An IP address: its family and its bits. */
  datatype Ip = Ip4(bits: nat) | Ip6(bits: nat)

  /** A stable uplink identifier, 1 to 63. */
  type UplinkId = n: nat | 1 <= n <= 63 witness 1

  /** A (uplink, family) pair. */
  datatype PathKey = PathKey(uplink: UplinkId, family: Family)

  const FAMILIES: set<Family> := {V4, V6}
}
