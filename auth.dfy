/** Credential values shared by every service client (the `aws_credential_types` crate's `Credentials`). */
module Auth {
  import opened Wrappers

  /** A point in time (`SystemTime`), as nanoseconds since the Unix epoch. */
  datatype Timestamp = Timestamp(nanos: int)

  datatype Credentials = Credentials(
    accessKeyId: string,
    secretAccessKey: string,
    sessionToken: Option<string>,
    expiresAfter: Option<Timestamp>,
    providerName: string)

  /** The signing identity a client derives from its credentials (`credentials.clone().into()`). */
  datatype Identity = Identity(credentials: Credentials)
}
