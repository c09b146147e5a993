/** The foreign collaborators of one client call: the signing library, the clock reading, and the network. */
module Context {
  import Auth
  import Ureq
  import Signing

  datatype Env = Env(signer: Signing.Signer, now: Auth.Timestamp, network: Ureq.Network)
}
