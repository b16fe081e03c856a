/** The interface of the node-to-node protocol client, which is not part of this model:
    the operation it runs and the arguments it is started with. */
module MuxProtocol {

  /** Rust's `u16`. */
  type U16 = x: int | 0 <= x < 0x1_0000

  /** Rust's `u32`. */
  type U32 = x: int | 0 <= x < 0x1_0000_0000

  /** The operation a protocol session performs. */
  datatype Cmd = Ping | Sync | SendTip

  /** The arguments of one protocol session, in the order they are passed: operation,
      database path, peer host and port, network magic, then the tip-reporting api key,
      node version, pool name and pool id. */
  datatype Session = Session(
    cmd: Cmd,
    db: string,
    host: string,
    port: U16,
    networkMagic: U32,
    apiKey: string,
    nodeVersion: string,
    poolName: string,
    poolId: string)
}
