# minaws request pipeline in Dafny

minaws is a small, hand-written Rust client for four AWS services: EC2, S3, Systems Manager
Parameter Store (SSM) and Secrets Manager. It also talks to the EC2 instance-metadata service
(IMDS). Every operation runs the same pipeline:

1. It builds a request: URL, headers, an EC2 query-parameter list, an S3 query or a JSON body.
2. It signs the request once with AWS Signature Version 4.
3. It sends the signed request through a bounded retry loop.
4. It classifies the outcome in two levels:
   - a status error or a transport error from the HTTP client;
   - then, for a status error, the service's error document, or a failure to decode it.

This project models that pipeline and proves its properties.

## Modules

- `Wrappers`: the `Option`, `Result` and `Outcome` types.
- `Format`: decimal rendering of indices and `MaxResults`.
- `Ureq`: the HTTP client library's request value, responses and errors.
  - `set` replaces a header of the same name.
  - `query` appends a query pair.
  - `header` finds the first header with a name.
- `Auth`: credentials, identity and timestamps.
- `Errors`: the I/O, XML and JSON error types.
- `Context`: the signer, the clock reading and the network, passed in from outside.
- `Signing`: `src/request.rs`. It covers:
  - the choice of signing settings;
  - what the signer is shown;
  - how the signer's instructions are applied (`update_request`).
- `Retry`: the one `send` loop that all four clients repeat.
  - It is a state machine, `Spec`, and a method, `Loop`.
  - `Loop` is proved equal to `Spec`.
  - The attempt bound, the backoff and the early exit are proved about `Spec`.
- `Ec2`, `S3`, `Ssm`, `SecretsManager`: the four clients. Each has:
  - its error type, its `From<ureq::Error>` and its error mapping;
  - its URL template, request shaping and input builders;
  - a `Send` that calls `Retry.Loop`.
- `Imds`: the metadata client. It has:
  - `from_map`;
  - the path and URL construction;
  - a class whose `token` field is the write-once token cell.

The retry loop in every client follows the code exactly.

- **Attempt count.** Each `send` loop returns the error once its counter has reached 3, so every client makes at most four attempts.
- **Sleeps.** There is no sleep before the second attempt, 10 ms before the third and 20 ms before the fourth.

Some names differ from the source.

- Each client's `Api` struct is `Client` here, because `Api` is also an error constructor.
- A request's method is the field `verb`.

## Model

| member | source | states |
|---|---|---|
| Format.Decimal | src/ec2.rs:120 | `to_string` of a number gives at least one decimal digit; the first digit is `0` only for zero |
| Format.DigitValue | src/ec2.rs:120 | the digit character for `d` stands for `d` |
| Format.DecimalValue | src/ec2.rs:120 | reading the rendered digits back gives the number, so rendering loses nothing |
| Format.DecimalInjective | src/ec2.rs:199 | distinct 1-based indices give distinct key suffixes |
| Ureq.Lookup | src/request.rs:56 | a header lookup finds nothing exactly when no header has that name |
| Ureq.Without | src/request.rs:73 | removing a name drops exactly the pairs with that name and keeps the rest |
| Ureq.SetHeader | src/request.rs:73 | after `set(name, value)`, `name` reads `value` and every other header reads as before |
| Ureq.SetKeepsUnique | src/ssm.rs:83-84 | `set` never creates a second header with the same name |
| Ureq.SetFresh | src/ssm.rs:83-84 | `set` of a name the request does not carry appends exactly that header |
| Ureq.LookupAppend | src/s3.rs:95-101 | a lookup in a list that grows by appending finds the earliest pair |
| Signing.SettingsFor | src/request.rs:41-44 | the checksum kind is `XAmzSha256` exactly when the service is `s3`; every other service gets the default settings |
| Signing.HeadersFor | src/request.rs:54-58 | the signer gets one header per name, in order, each with that name's value or `""` |
| Signing.HeaderNamesHaveValues | src/request.rs:56 | every name from `header_names` has a value, so the `""` fallback is never taken |
| Signing.SignableHeadersExact | src/request.rs:54-58 | when header names are unique, the signer sees exactly the request's headers |
| Signing.ApplyHeadersEffect | src/request.rs:72-74 | applying instruction headers leaves method, URL and query alone; a header named by an instruction takes the last such value, any other keeps its old value |
| Signing.ApplyParamsEffect | src/request.rs:75-77 | instruction parameters are appended to the query, in order |
| Signing.UpdateRequest | src/request.rs:70-79 | headers are applied, then parameters; method and URL are unchanged; the query is the old query plus the parameters; each header is the last instruction value for its name, or its old value |
| Signing.SignRequest | src/request.rs:34-68 | the signer is shown the request's headers and exactly `body`, with the settings for the service and the single clock reading `now`; a refusal by `SignableRequest::new` or a failure of `sign` returns `SigningError` and no request; otherwise the instructions are applied |
| Retry.BackoffValues | src/ec2.rs:169-171 | no sleep before the 2nd attempt, 10 ms before the 3rd, 20 ms before the 4th |
| Retry.SpecFromShape | src/ec2.rs:161-175 | from counter `k`: at most `4 - k` attempts, all with the same payload; every attempt but the last failed; the result is the last outcome; a failure means the counter reached 3; the sleeps follow the backoff |
| Retry.SpecShape | src/ec2.rs:161-175 | 1 to 4 attempts with the same signed payload; every attempt but the last failed; the result is the last outcome converted by `into`; a failure means four attempts; the sleeps are `Backoff(attempts)` |
| Retry.FirstSuccessStops | src/ec2.rs:163-164 | when attempt `n` is the first success, exactly `n + 1` attempts are made and that success is returned |
| Retry.AllFailuresExhaust | src/ec2.rs:165-168 | when every attempt fails, exactly 4 attempts are made with sleeps 10 then 20 ms, and the 4th error is returned |
| Retry.KindOfFailureIgnored | src/ec2.rs:165-173 | which error an attempt returns never changes how many attempts are made or the sleeps taken, so status and transport errors are retried alike |
| Retry.Stop | src/ec2.rs:163-168 | a success, or a failure with the counter at 3, ends the loop with that outcome after recording the attempt |
| Retry.Continue | src/ec2.rs:165-173 | a failure below the bound records the attempt and the pause for the current counter, and the loop continues from the next counter |
| Retry.Loop | src/ec2.rs:161-175 | the counter-driven loop equals `Spec`: 1 to 4 attempts of one payload, the last outcome returned, four attempts on failure, sleeps `Backoff(attempts)` |
| Ec2.DescribeVolumesInput.WithFilters | src/ec2.rs:270-273 | sets `filters` to `Some` and leaves the other fields unchanged |
| Ec2.DescribeVolumesInput.WithMaxResults | src/ec2.rs:275-278 | sets `max_results` to `Some` and leaves the other fields unchanged |
| Ec2.DescribeVolumesInput.WithNextToken | src/ec2.rs:280-283 | sets `next_token` to `Some` and leaves the other fields unchanged |
| Ec2.DescribeVolumesInput.WithVolumeIds | src/ec2.rs:285-288 | sets `volume_ids` to `Some` and leaves the other fields unchanged |
| Ec2.DescribeVolumesBuildersCommute | src/ec2.rs:269-289 | builders for different fields commute, and a repeated builder keeps the later value |
| Ec2.FromUreq | src/ec2.rs:41-48 | a status error becomes `Api` with its status and response; a transport error becomes `Transport` |
| Ec2.FromUreqInjective | src/ec2.rs:41-48 | the conversion is injective |
| Ec2.ClassifyError | src/ec2.rs:99-104 | `Api` becomes `EC2` of the decoded body, or `Xml` when decoding fails; other errors pass through; the result is never `Api` |
| Ec2.ClassifyErrorIdempotent | src/ec2.rs:135-140 | classifying a classified error changes nothing |
| Ec2.Complete | src/ec2.rs:93-105 | success exactly when the response decodes; a decode failure is `Xml`; a failure is classified; an `Api` error never escapes |
| Ec2.Url | src/ec2.rs:178-180 | the URL is `https://ec2.<region>.amazonaws.com` |
| Ec2.UrlInjective | src/ec2.rs:178-180 | distinct regions give distinct URLs |
| Ec2.AttachVolumeParams | src/ec2.rs:85-91 | exactly the five keys `Action`, `Version`, `Device`, `InstanceId`, `VolumeId` in that order, with `AttachVolume`, `2016-11-15` and the input's fields |
| Ec2.IndexedParamsAt | src/ec2.rs:216-224 | one pair per value; pair `i` is (`prefix.<i+1>`, value `i`) |
| Ec2.StringsToParams | src/ec2.rs:216-224 | the loop yields exactly one pair per value; pair `i` is (`prefix.<i+1>`, value `i`), in input order |
| Ec2.FilterParamsAt | src/ec2.rs:194-203 | one filter flattens to 1 + the number of values pairs: first (`prefix.Name`, name), then (`prefix.Value.<i+1>`, value `i`) |
| Ec2.FilterToParams | src/ec2.rs:194-203 | the push loop yields exactly the flattening `FilterParamsAt` describes |
| Ec2.FilterKeysUnder | src/ec2.rs:197-199 | every key of a filter's flattening starts with that filter's prefix |
| Ec2.FiltersParamsShape | src/ec2.rs:205-214 | a list of filters flattens to one pair per filter plus one per value, every key under `prefix.` |
| Ec2.FiltersToParams | src/ec2.rs:205-214 | the loop yields the concatenation of filter `i` flattened under `prefix.<i+1>` |
| Ec2.DescribeVolumesParams | src/ec2.rs:112-127 | the push and extend sequence builds the parameter list: `Action`, `Version`, then filters, `MaxResults`, `NextToken`, volume ids, each only when set |
| Ec2.VolumeIdKeys | src/ec2.rs:125-126 | the volume-id pairs never use the key `MaxResults` or `NextToken` |
| Ec2.FilterKeys | src/ec2.rs:116-117 | the filter pairs never use the key `MaxResults` or `NextToken` |
| Ec2.OptionalPartKeys | src/ec2.rs:116-127 | the optional filter and volume-id blocks never use the key `MaxResults` or `NextToken` |
| Ec2.MaxResultsLookup | src/ec2.rs:119-121 | `MaxResults` reads as the decimal rendering of the input value when set, and is absent otherwise |
| Ec2.NextTokenLookup | src/ec2.rs:122-124 | `NextToken` reads as the input token when set, and is absent otherwise |
| Ec2.DescribeVolumesParamsShape | src/ec2.rs:112-127 | the list starts with `Action=DescribeVolumes`, `Version=2016-11-15`; `MaxResults` and `NextToken` are present exactly when set, with their values; with no options there are just those two pairs |
| Ec2.Send | src/ec2.rs:144-176 | form-encodes once and signs once over those bytes; every attempt carries exactly those bytes; at most 4 attempts; no attempt exactly when signing fails |
| Ec2.AttachVolume | src/ec2.rs:82-106 | POSTs the five attach parameters to the endpoint through `send`, and maps the outcome as `Complete` does |
| Ec2.DescribeVolumes | src/ec2.rs:108-142 | POSTs the describe parameters to the endpoint followed by `/` through `send`, and maps the outcome as `Complete` does |
| S3.GetObjectInput.WithBucket | src/s3.rs:169-172 | sets `bucket` and keeps `key` |
| S3.GetObjectInput.WithKey | src/s3.rs:174-177 | sets `key` and keeps `bucket` |
| S3.ListObjectsV2Input.WithBucket | src/s3.rs:201-204 | sets `bucket` and keeps the other fields |
| S3.ListObjectsV2Input.WithContinuationToken | src/s3.rs:206-209 | sets `continuation_token` to `Some` and keeps the other fields |
| S3.ListObjectsV2Input.WithPrefix | src/s3.rs:211-214 | sets `prefix` to `Some` and keeps the other fields |
| S3.BuildersCommute | src/s3.rs:168-215 | builders for different fields commute, and a repeated builder keeps the later value |
| S3.FromUreq | src/s3.rs:45-52 | a status error becomes `Api` with its status and response; a transport error becomes `Transport` |
| S3.FromUreqInjective | src/s3.rs:45-52 | the conversion is injective |
| S3.ClassifyError | src/s3.rs:108-113 | `Api` becomes `S3` of the decoded body, or `Xml` when decoding fails; other errors pass through; the result is never `Api` |
| S3.ClassifyErrorIdempotent | src/s3.rs:124-129 | classifying a classified error changes nothing |
| S3.Url | src/s3.rs:154-159 | the URL is `https://<bucket>.s3.<region>.amazonaws.com` |
| S3.UrlInjective | src/s3.rs:154-159 | within a region distinct buckets give distinct URLs; for a bucket, distinct regions give distinct URLs |
| S3.ListObjectsV2Request | src/s3.rs:93-101 | a GET of the endpoint followed by `/` with no headers, whose first query pair is `list-type=2` |
| S3.ListObjectsV2Query | src/s3.rs:95-101 | the query is `list-type=2`, then `continuation-token` when set, then `prefix` when set, in that order; each option reads as the input holds it (absent when unset), and no other pair is added |
| S3.GetObjectRequest | src/s3.rs:118-119 | a GET of `https://<bucket>.s3.<region>.amazonaws.com/<key>` with no query |
| S3.Send | src/s3.rs:133-152 | signs once over an empty body; every attempt is sent with no body; at most 4 attempts; no attempt exactly when signing fails |
| S3.SignsPayloadHash | src/s3.rs:135 | S3 requests are signed with the `XAmzSha256` checksum kind |
| S3.ListComplete | src/s3.rs:102-114 | success exactly when the response decodes; a decode failure is `Xml`; a failure is classified; an `Api` error never escapes |
| S3.GetComplete | src/s3.rs:120-130 | a success hands back the response body unparsed; a failure is classified |
| S3.ListObjectsV2 | src/s3.rs:92-115 | rebinding `req` through the `query` calls builds `ListObjectsV2Request`; it is sent through `send` and mapped by `ListComplete` |
| S3.GetObject | src/s3.rs:117-131 | sends `GetObjectRequest` through `send` and maps the outcome by `GetComplete` |
| Ssm.GetParameterInput.WithName | src/ssm.rs:155-158 | sets `name` and keeps `with_decryption` |
| Ssm.GetParameterInput.WithDecryption | src/ssm.rs:159-162 | sets `with_decryption` to `Some` and keeps `name` |
| Ssm.GetParametersByPathInput.WithMaxResults | src/ssm.rs:190-193 | sets `max_results` to `Some`, all other fields unchanged |
| Ssm.GetParametersByPathInput.WithNextToken | src/ssm.rs:194-197 | sets `next_token` to `Some`, all other fields unchanged |
| Ssm.GetParametersByPathInput.WithParameterFilters | src/ssm.rs:198-201 | sets `parameter_filters` to `Some`, all other fields unchanged |
| Ssm.GetParametersByPathInput.WithPath | src/ssm.rs:202-205 | sets `path`, all other fields unchanged |
| Ssm.GetParametersByPathInput.WithRecursive | src/ssm.rs:206-209 | sets `recursive` to `Some`, all other fields unchanged |
| Ssm.GetParametersByPathInput.WithDecryption | src/ssm.rs:210-213 | sets `with_decryption` to `Some`, all other fields unchanged |
| Ssm.BuildersCommute | src/ssm.rs:189-214 | builders for different fields commute, and a repeated builder keeps the later value |
| Ssm.FromUreq | src/ssm.rs:31-37 | a status error becomes `Api` with its status and response; a transport error becomes `Transport` |
| Ssm.FromUreqInjective | src/ssm.rs:31-37 | the conversion is injective |
| Ssm.ClassifyError | src/ssm.rs:90-94 | `Api` becomes `SSM` of the decoded body, or `Json` when decoding fails; other errors pass through; the result is never `Api` |
| Ssm.ClassifyErrorIdempotent | src/ssm.rs:110-114 | classifying a classified error changes nothing |
| Ssm.Complete | src/ssm.rs:85-95 | success exactly when the response decodes; a decode failure is `Json`; a failure is classified; an `Api` error never escapes |
| Ssm.Url | src/ssm.rs:140-142 | the URL is `https://ssm.<region>.amazonaws.com` |
| Ssm.UrlInjective | src/ssm.rs:140-142 | distinct regions give distinct URLs |
| Ssm.TargetRequest | src/ssm.rs:82-84 | a POST to the endpoint with no query and exactly two headers, `Content-Type: application/x-amz-json-1.1` and `X-Amz-Target: <target>`, both shown to the signer |
| Ssm.Send | src/ssm.rs:118-138 | a serialization failure returns `Json` with no attempt; otherwise every attempt carries exactly the serialized bytes that were signed; at most 4 attempts; no attempt exactly when serialization or signing fails |
| Ssm.GetParameter | src/ssm.rs:81-96 | sends the `AmazonSSM.GetParameter` request through `send` and maps the outcome by `Complete` |
| Ssm.GetParametersByPath | src/ssm.rs:98-116 | sends the `AmazonSSM.GetParametersByPath` request through `send` and maps the outcome by `Complete` |
| SecretsManager.GetSecretValueInput.WithSecretId | src/secretsmanager.rs:137-140 | sets `secret_id`, the other fields unchanged |
| SecretsManager.GetSecretValueInput.WithVersionId | src/secretsmanager.rs:141-144 | sets `version_id` to `Some`, the other fields unchanged |
| SecretsManager.GetSecretValueInput.WithVersionStage | src/secretsmanager.rs:145-148 | sets `version_stage` to `Some`, the other fields unchanged |
| SecretsManager.BuildersCommute | src/secretsmanager.rs:136-149 | builders for different fields commute, and a repeated builder keeps the later value |
| SecretsManager.FromUreq | src/secretsmanager.rs:31-38 | a status error becomes `Api` with its status and response; a transport error becomes `Transport` |
| SecretsManager.FromUreqInjective | src/secretsmanager.rs:31-38 | the conversion is injective |
| SecretsManager.ClassifyError | src/secretsmanager.rs:90-94 | `Api` becomes `SecretsManager` of the decoded body, or `Json` when decoding fails; other errors pass through; the result is never `Api` |
| SecretsManager.ClassifyErrorIdempotent | src/secretsmanager.rs:90-94 | classifying a classified error changes nothing |
| SecretsManager.Complete | src/secretsmanager.rs:85-95 | success exactly when the response decodes; a decode failure is `Json`; a failure is classified; an `Api` error never escapes |
| SecretsManager.Url | src/secretsmanager.rs:120-122 | the URL is `https://secretsmanager.<region>.amazonaws.com` |
| SecretsManager.UrlInjective | src/secretsmanager.rs:120-122 | distinct regions give distinct URLs |
| SecretsManager.TargetRequest | src/secretsmanager.rs:82-84 | a POST to the endpoint with no query and exactly two headers, `Content-Type: application/x-amz-json-1.1` and `X-Amz-Target: <target>`, both shown to the signer |
| SecretsManager.Send | src/secretsmanager.rs:98-118 | a serialization failure returns `Json` with no signing and no attempt; otherwise every attempt carries exactly the serialized bytes that were signed; at most 4 attempts |
| SecretsManager.GetSecretValue | src/secretsmanager.rs:81-96 | sends the `secretsmanager.GetSecretValue` request through `send` and maps the outcome by `Complete` |
| Imds.FromUreq | src/imds.rs:45-49 | a client error becomes `Request`, carrying that error |
| Imds.TokenRequest | src/imds.rs:67-70 | a PUT of `<endpoint>/latest/api/token` whose TTL header reads `21600` |
| Imds.PathRequest | src/imds.rs:75-78 | a GET of `<endpoint>/<path>` whose token header reads the token |
| Imds.JoinShape | src/imds.rs:93-101 | `Path::join` as `get_metadata` and `get_credentials` use it: an absolute path replaces the base; otherwise the result starts with the base, ends with the path, and has one separator between them exactly when the base is non-empty and lacks a trailing `/` |
| Imds.FetchToken | src/imds.rs:68-74 | the token is the body of the response to `TokenRequest`, read as text; a failed token call becomes an `Other` I/O error carrying the client error's displayed text, and a failed read is returned as it is |
| Imds.BodyText | src/imds.rs:83-96 | a successful response gives its body read as text, and a failed read becomes `Io`; a failure of `get` is passed on unchanged |
| Imds.MetadataPaths | src/imds.rs:93-101 | for a relative path: `get_metadata` requests `latest/meta-data/<path>`, and the credentials path is `latest/meta-data/iam/security-credentials/<role>` |
| Imds.FromMap | src/imds.rs:113-140 | a missing `AccessKeyId` is NotFound, checked before a missing `SecretAccessKey`; an unparsable `Expiration` is InvalidInput; success exactly when both keys are present and any `Expiration` parses; the key, secret and token (or none) come from the map, with provider `imds` |
| Imds.Imds.constructor | src/imds.rs:56-63 | the default endpoint is `http://169.254.169.254` and the token cell is empty |
| Imds.Imds.Get | src/imds.rs:66-81 | the token is fetched only when the cell is empty, and a set cell is reused with no token request; a failed fetch leaves the cell empty and returns the error; the metadata request goes to `<endpoint>/<path>` with the token |
| Imds.Imds.GetMetadata | src/imds.rs:92-96 | `get` of `latest/meta-data` joined with the path: a set cell is kept and reused; an empty cell is filled by `FetchToken`, or stays empty and the result is that fetch's error with only the token request made; otherwise the result is the path response mapped by `FromUreq`, its body read as text by `BodyText` |
| Imds.Imds.GetUserData | src/imds.rs:83-86 | `get` of `latest/user-data`, with the same new cell, requests and result as `GetMetadata` |
| Imds.Imds.GetRegion | src/imds.rs:88-90 | `get_metadata` of `placement/region`, so the request is for `latest/meta-data/placement/region`; the new cell, the requests and the result are those of `GetMetadata` |
| Imds.Imds.GetCredentials | src/imds.rs:98-105 | the cell is filled as by `get`, and a failed fetch returns its error after the token request alone; then the role path is requested, and a failure returns its error with no further request; then the path joined with the role text just read is requested, and its failure, a string-map decode failure (`SerdeJson`) or `FromMap` of the map is the result; at most the first request is a token request |

## Left out

- The SigV4 algorithm. The canonical request, hashing and key derivation belong to the signing library, so `SignableRequest::new` and `sign` are the parameters `Signer.accept` and `Signer.sign`.
- HTTP transport. Each attempt is an oracle call `network(outgoing, attempt)`. Reading a body (`into_reader`, `into_string`) is the response's bytes or a `readText` parameter. Sleeps are recorded as durations in `Run.sleeps`, not taken.
- Library serialization. XML and JSON decoding, JSON serialization, form encoding, the RFC 3339 parser and the JSON string-map parser are all function parameters.
- `SystemTime::now()` is the parameter `now`. It is read once per `sign_request` call, and that reading is the one the signer receives.
- The `unwrap` of the signing-parameter builder (`src/request.rs:52`) is library behaviour. The builder is always given every field, so the model builds the parameters directly.
- Thread safety of the `OnceCell`. Two first callers racing is concurrency; only the sequential write-once behaviour of the cell is modelled.
- Ureq header names: the client library matches them case-insensitively, `header_names` reports them lower-cased, and it can keep two headers of one name. The model matches names exactly and shows the signer the names as they were set. It assumes that the signer's instruction headers never repeat a name, so that `Ureq.Set` (which replaces) applies them as the library does. Under those assumptions the headers this code sets, which have distinct fixed spellings, are modelled as sent.
- The URL string with the query appended is not built. Query pairs are kept beside the base URL, and a `query` call on a URL the library cannot parse is not modelled.
- The `From<io::Error>` impls of EC2 and S3, and S3's `From<imds::Error>`, are not modelled. This code never calls them. The conversions it does use are all modelled:
  - the `?` after `sign_request` (`From<request::Error>`, giving `Request`);
  - the `map_err(Into::into)` on each attempt (`From<ureq::Error>`);
  - the `?` after each decoder and after `to_vec` (`From<serde_xml_rs::Error>` or `From<serde_json::Error>`, giving `Xml` or `Json` in `Send`, `Complete` and `ClassifyError`).
- `Http`, `Io`, `NoSuchBucket` and `Imds` errors are declared, but this code never produces them.
- Response records and their `f64` date fields are not modelled. The decoded output type is a type parameter `O`, and decoding is a parameter.
- `Display` and `Debug` are formatting only.
