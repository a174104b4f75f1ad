/** The three fixed tiers that an upstream key's group can belong to. */
module Tiers {

  datatype Tier = Main | Backup | Emergency

  function Index(t: Tier): nat
  {
    match t
    case Main => 0
    case Backup => 1
    case Emergency => 2
  }
}
