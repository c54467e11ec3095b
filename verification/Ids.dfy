/** Who trades what: accounts, markets and collateral tokens are known by number. */
module Ids {
  type User = nat

  type Market = nat

  type Token = nat
}
