/** Values shared by every request handler of the election backend. */
module Common {

  /** Outcome of one request handler: a value, or an HTTP status with the
      message the handler puts in its JSON body. */
  datatype Result<T> = Ok(value: T) | Err(status: nat, msg: string)

  datatype Option<T> = None | Some(value: T)

  /** Mongo ObjectId of a user document. */
  type UserId = nat

  /** The principal the authentication middleware attaches to a request. */
  datatype Principal = Principal(id: UserId, role: string)

  /** The custodial wallet created for a user at registration. */
  datatype Wallet = Wallet(address: string, privateKey: string, balance: nat)

  /** What the handlers read as `receipt.transactionHash`. They call ethers
      v6, whose transaction receipt names the hash `hash`, so the property
      is undefined and no handler ever has a hash to store or return. */
  const ReceiptHash: Option<string> := None

  /** Message used by every handler that finds a falsy receipt status. */
  const TxFailed: string := "Transaction failed or reverted"

  /** The adminAuth middleware in front of the admin election routes:
      403 unless the authenticated user has role "admin". */
  predicate IsAdmin(p: Principal)
  {
    p.role == "admin"
  }
}
