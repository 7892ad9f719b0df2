/** config/config.go: the chain's fixed parameters. */
module Config {

  /** Difficulty of the genesis block and of every block this node mines. */
  const InitialChainDifficulty: int := 16

  /** Coins paid by every coinbase transaction. */
  const MiningReward: int := 100
}
