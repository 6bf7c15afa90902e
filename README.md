# ndp-ep client core, modelled in Dafny

`ndp_ep` is a thin Python client for the National Data Platform endpoint
API. Each operation builds one HTTP request (URL, query, body), sends it
through a `requests` session, and turns failures into `ValueError` messages
for the caller. Some operations also update the client's own state: the
token and the session's `Authorization` header, or the shared `remote_func`
helper of the remote-execution package.

This project models that core and proves what each operation sends and what
it raises.

- **Network as input.** The network is a parameter of every operation: an
  `Outcome` is either the reply (status, reason, URL, decoded body, raw
  text) or a transport failure. The result of an operation is a `Call`: the
  request it sent, if any, and what it returned or raised.
- **Decoding success replies.** An operation that ends in `return
  response.json()` handles only `HTTPError`. A success reply whose body is not
  JSON therefore raises the decoder's error out of the operation
  (`Http.Decoded`, the `DecodeError` outcome). The two downloads hand back the
  raw content and never decode.
- **Plain functions.** The pure operations (URL building, payloads,
  parameters, message selection) are functions.
- **Client state.** The client's session state is the class
  `ClientBase.Client`. Its fields are the base URL, the token and the
  session headers. `__init__`/`get_token` are methods on it with `modifies`
  clauses.
- **Remote execution.** `_prepare_requirements` is a loop that writes lines
  to a `TempFile` object. The shared helper is the class `RemoteFunc`, which
  keeps the list of calls it received.

Modules, following the source files:

| file | source |
|---|---|
| `wrappers.dfy`, `text.dfy` | `Option`/`Result`, and the Python string operations used: `in`, `startswith`, `rstrip`, `strip`, `split`, `join`, `lower`, `int`/`str` on naturals |
| `http.dfy` | what the client sees of `requests`: requests, replies, `raise_for_status`, and the shared "detail or error text" handler |
| `version_config.py` → `version_config.dfy` | version parsing and tuple comparison |
| `client_base.py` → `client_base.dfy` | URL normalisation, token / login / probe, client state |
| `search_method.py` → `search.dfy` | keyword and advanced dataset search |
| `resource_method.py` → `resource.dfy` | get / patch / delete of a resource, resource search |
| `rexec_method.py` → `rexec.dfy` | remote-execution set-up |
| `pelican_method.py` → `pelican.dfy` | Pelican federation operations |
| `s3_objects_method.py` → `s3_objects.dfy` | S3 objects |
| `s3_buckets_method.py` → `s3_buckets.dfy` | S3 buckets |
| `get_user_info_method.py` → `user_info.dfy` | current user information |
| `register_*_method.py` → `registration.dfy` plus one file each | the four registration calls and their ordered substring classifiers |

## Model

| member | source | states |
|---|---|---|
| Text.RStrip | ndp_ep/client_base.py:31 | `rstrip(c)` yields a prefix of the input. The prefix does not end in `c`, and everything removed is `c`. |
| Text.RStripIdempotent | ndp_ep/client_base.py:31 | Stripping twice strips nothing more. |
| Text.RStripAppend | ndp_ep/rexec_method.py:178 | Appending only `c` characters does not change the stripped result. |
| Text.RStripKeepsPrefix | ndp_ep/client_base.py:31 | Characters up to and including any non-`c` character survive `rstrip`. |
| Text.Strip | ndp_ep/rexec_method.py:120 | `strip()` yields a result with no white space at either end. |
| Text.StripTrims | ndp_ep/rexec_method.py:120 | The result is one slice of the input, with only white space before and after it: only the surrounding white space is removed, and the middle is kept. |
| Text.StripBlank | ndp_ep/rexec_method.py:120-121 | The stripped text is empty iff the input is all white space. |
| Text.SkipSpace | ndp_ep/rexec_method.py:120 | Finds the first non-space position at or after `i`. Everything skipped is white space. |
| Text.SkipSpaceBack | ndp_ep/rexec_method.py:120 | Finds the end of the string once trailing white space is dropped. Everything dropped is white space. |
| Text.Split | ndp_ep/version_config.py:28 | `split(c)` yields at least one piece, and no piece contains the separator. |
| Text.JoinSplit | ndp_ep/rexec_method.py:213-215 | Joining the pieces of a split gives the string back. |
| Text.SplitJoin | ndp_ep/version_config.py:28 | Splitting a join of separator-free pieces gives the pieces back. |
| Text.JoinLast | ndp_ep/rexec_method.py:215-216 | A join equals the join of all pieces but the last, the separator, then the last piece. |
| Text.Lower | ndp_ep/resource_method.py:52 | `lower()` keeps the length. |
| Text.LowerFolds | ndp_ep/resource_method.py:52 | No upper-case ASCII letter is left. Each character is kept, or is an upper-case letter turned into its lower-case partner. |
| Text.LowerIdempotent | ndp_ep/resource_method.py:52 | Lower-casing twice is lower-casing once. |
| Text.NatToString | ndp_ep/rexec_method.py:222 | `str(n)` is a non-empty decimal string with no '.' and no ':'. |
| Text.NatToStringValue | ndp_ep/version_config.py:31 | `int(str(n)) == n`. |
| VersionConfig.ParseVersion | ndp_ep/version_config.py:14-33 | Parsing succeeds iff the string splits on '.' into exactly three decimal parts. Every failure carries "Invalid version format: " and the input. |
| VersionConfig.ParseDecimalTriple | ndp_ep/version_config.py:28-31 | Three decimal strings joined by dots parse to their values. |
| VersionConfig.ParseFormatRoundTrip | ndp_ep/version_config.py:14-33 | Formatting a triple and parsing it back gives the triple. |
| VersionConfig.RejectedExamples | ndp_ep/version_config.py:29-30 | "1.2", "1.2.3.4" and "" have the wrong number of parts and are rejected. |
| VersionConfig.RejectedLetterExample | ndp_ep/version_config.py:31-33 | "1.a.3" has a part that is not a number and is rejected. |
| VersionConfig.IsVersionCompatible | ndp_ep/version_config.py:36-54 | Succeeds iff both strings parse. The API version's error is reported first. |
| VersionConfig.CompatibleIffAtLeast | ndp_ep/version_config.py:52-54 | For valid strings, the tuple `>=` is the major/minor/patch comparison. |
| VersionConfig.TupleLeTriple | ndp_ep/version_config.py:54 | Python tuple order on triples is the position-by-position comparison. |
| VersionConfig.TupleLeReflexive | ndp_ep/version_config.py:54 | Tuple `<=` is reflexive. |
| VersionConfig.TupleLeTransitive | ndp_ep/version_config.py:54 | Tuple `<=` is transitive. |
| VersionConfig.TupleLeTotal | ndp_ep/version_config.py:54 | Tuple `<=` is total. |
| VersionConfig.CompatibleReflexive | ndp_ep/version_config.py:36-54 | A valid version is compatible with itself. |
| VersionConfig.CompatibleTransitive | ndp_ep/version_config.py:36-54 | Compatibility is transitive. |
| VersionConfig.CompatibleTotal | ndp_ep/version_config.py:36-54 | Of two valid versions, one is compatible with the other. |
| VersionConfig.GetMinimumVersion | ndp_ep/version_config.py:10 | The pinned minimum is "0.2.0", which parses to (0, 2, 0). |
| VersionConfig.IsCompatibleWithMinimum | ndp_ep/version_config.py:36-38 | With the default minimum: an invalid API version is an error. Otherwise the result is "at least 0.2.0". |
| ClientBase.FirstIndex | ndp_ep/client_base.py:69 | Finds the first occurrence of a character, or the length when there is none. |
| ClientBase.EnsureProtocol | ndp_ep/client_base.py:56-72 | The result always has a scheme. A URL with a scheme is unchanged; any other gets "http://" in front. |
| ClientBase.RStripKeepsScheme | ndp_ep/client_base.py:31 | Stripping trailing '/' never removes the scheme. |
| ClientBase.NormalizeBaseUrl | ndp_ep/client_base.py:31 | The stored base URL has a scheme and never ends in '/'. |
| ClientBase.NormalizeIdempotent | ndp_ep/client_base.py:31 | Normalising twice changes nothing. |
| ClientBase.NormalizeSchemeless | ndp_ep/client_base.py:31 | A scheme-less URL becomes "http://" + URL with trailing '/' stripped. |
| ClientBase.ConnectFailureStarts | ndp_ep/client_base.py:86-90 | The connection-failure message starts "Failed to connect". It does not start like the status, transport or authentication messages. |
| ClientBase.ProbeErrorClasses | ndp_ep/client_base.py:74-100 | The probe fails iff there is a transport failure or an error status. The message start tells connection refused, error status (with its code) and other transport error apart, in both directions. |
| ClientBase.AccessToken | ndp_ep/client_base.py:120 | `access_token` is read only when it is a string. |
| ClientBase.TokenErrorClasses | ndp_ep/client_base.py:113-147 | Succeeds iff a JSON object with a non-empty token comes back. Invalid credentials iff 401. No access token iff the decoded token is falsy. Connection failure iff connection refused. Transport errors never escape. |
| ClientBase.TokenMessagesDiffer | ndp_ep/client_base.py:122-140 | Invalid credentials, missing token and connection failure are three different messages. |
| ClientBase.Client.constructor | ndp_ep/client_base.py:31-35 | Sets the normalised base URL, no token and no headers. |
| ClientBase.Client.CheckApiAvailability | ndp_ep/client_base.py:74-100 | Sends one GET of the base URL. It raises only `ValueError`s and changes nothing. |
| ClientBase.Client.GetToken | ndp_ep/client_base.py:102-147 | POSTs the credentials. A decoded object overwrites the token, even with an empty one. The header is set only for a usable token. The base URL and the `Valid` invariant are kept. |
| ClientBase.Client.Authenticate | ndp_ep/client_base.py:37-54 | Token with username or password raises without a request. A token alone sets the token and header. Username and password exchange them. Otherwise the API is probed. |
| ClientBase.NewClient | ndp_ep/client_base.py:11-54 | `__init__` end to end. Token-exchange success iff a usable token is stored and is the only header. |
| Search.Strings | ndp_ep/search_method.py:48-52 | A list of strings becomes a JSON array of the same strings. |
| Search.ProcessKeys | ndp_ep/search_method.py:42-44 | Keeps the length. A given key stays as it is; `None` becomes "null". |
| Search.ProcessKeysPresent | ndp_ep/search_method.py:42-44 | A list with no `None` passes through unchanged. |
| Search.SearchParams | ndp_ep/search_method.py:48-52 | Terms and server are always present. `keys` is present iff non-empty. |
| Search.SearchDatasets | ndp_ep/search_method.py:12-64 | A key list of the wrong length is refused before any request. Otherwise it sends a GET of `/search`. Error statuses give the prefix and the detail; transport errors and the decoder's error on a non-JSON success body escape. |
| Search.SearchDefaults | ndp_ep/search_method.py:12-64 | Without keys or a server, the query is terms plus "global". |
| Search.SearchErrorsPrefixed | ndp_ep/search_method.py:58-64 | Every `ValueError` after a request starts with "Error searching for datasets: ". |
| Search.AdvancedSearch | ndp_ep/search_method.py:66-102 | POSTs the document unchanged. Error statuses give the prefix and the detail. |
| Resource.ResourceDetail | ndp_ep/resource_method.py:45-50 | The detail is a string `detail` when there is one; otherwise the reply text. A non-string `detail` ends in `AttributeError`. |
| Resource.FailureMessage | ndp_ep/resource_method.py:52-55 | A detail saying "not found" in any case gives the not-found message; any other detail gives the operation prefix plus the detail. |
| Resource.FailureMessageClasses | ndp_ep/resource_method.py:52-55 | The not-found message appears iff the detail says "not found". Every other message carries the operation prefix. |
| Resource.NotFoundIgnoresCase | ndp_ep/resource_method.py:52 | "Resource Not Found" counts as not found; "Resource missing" does not. |
| Resource.PatchBody | ndp_ep/resource_method.py:97-106 | The body holds exactly the fields that were given. |
| Resource.ResourceCall | ndp_ep/resource_method.py:38-55 | One request to `/resource/<id>` with the `server` query. It succeeds iff the status is not 4xx/5xx. |
| Resource.ResourceCallNotFound | ndp_ep/resource_method.py:45-55 | The not-found message appears iff there is an error status and the detail says "not found". Otherwise the operation prefix is used. |
| Resource.GetResource | ndp_ep/resource_method.py:13-55 | A GET without a body (server "local" by default). |
| Resource.PatchResource | ndp_ep/resource_method.py:57-123 | A PATCH carrying exactly the given fields. |
| Resource.DeleteResource | ndp_ep/resource_method.py:125-172 | A DELETE without a body. |
| Resource.SearchParams | ndp_ep/resource_method.py:225-242 | Server, limit and offset are always present. Each filter is present iff given. |
| Resource.SearchResources | ndp_ep/resource_method.py:174-255 | A GET of `/resources/search`. Success iff the reply has no error status and decodes; a non-JSON success body raises the decoder's error. Every error status gives the search prefix and the quoted detail: the `str()` of any `detail`, otherwise the reply text. Transport errors escape. |
| Resource.SearchDetailAgrees | ndp_ep/resource_method.py:248-255 | The search quotes the same detail as get/patch/delete where those have one. Where they fail on a non-string `detail`, the search quotes its `str()`. |
| Resource.SearchNeverNotFound | ndp_ep/resource_method.py:248-255 | Every error status of a search raises a message with the search prefix, so a search never reports a missing resource. |
| Resource.SearchDefaults | ndp_ep/resource_method.py:174-186 | With no arguments the query is server "local", limit 100 and offset 0. |
| Rexec.BuildRexecUrl | ndp_ep/rexec_method.py:164-172 | A given `api_url` without trailing '/'. Otherwise the stripped base plus the path, with a '/' added when the path has none. |
| Rexec.RexecPathSlashOptional | ndp_ep/rexec_method.py:171 | "rexec" and "/rexec" give the same URL. |
| Rexec.RexecUrlShape | ndp_ep/rexec_method.py:168-172 | A given URL never ends in '/'. A derived URL is the stripped base followed by '/'. |
| Rexec.ConfigUrl | ndp_ep/rexec_method.py:178 | The config URL is the stripped rexec URL followed by "/config". |
| Rexec.ConfigUrlIgnoresSlashes | ndp_ep/rexec_method.py:178 | A trailing '/' on the rexec URL changes nothing. |
| Rexec.RequirementLine | ndp_ep/rexec_method.py:120-123 | Writes the stripped item and a newline iff the stripped item is neither blank nor a comment. |
| Rexec.RequirementLinesAppend | ndp_ep/rexec_method.py:119-123 | Filtering a concatenation filters each part, in order. |
| Rexec.RequirementLinesSnoc | ndp_ep/rexec_method.py:119-123 | One more item adds at most its own line at the end. |
| Rexec.RequirementLinesShape | ndp_ep/rexec_method.py:119-123 | Lines never outnumber items. Each line is a kept, stripped specifier followed by a newline. |
| Rexec.RequirementLinesClean | ndp_ep/rexec_method.py:119-123 | Clean specifiers are written as they are, one per line. |
| Rexec.TempFile.constructor | ndp_ep/rexec_method.py:116-117 | A new temporary file is empty. |
| Rexec.TempFile.Write | ndp_ep/rexec_method.py:123 | Appends exactly one line. |
| Rexec.WriteRequirements | ndp_ep/rexec_method.py:118-123 | The loop appends exactly `RequirementLines(items)` to the file. |
| Rexec.PrepareRequirements | ndp_ep/rexec_method.py:104-133 | A missing path is refused and an existing path is used as is. Specifiers are written to a new temporary file as exactly `RequirementLines(items)`. |
| Rexec.ResolveToken | ndp_ep/rexec_method.py:67-72 | The argument token, else the client token, else "Token is required…". |
| Rexec.UserId | ndp_ep/rexec_method.py:156-162 | An undecodable token is invalid. Otherwise succeeds iff `sub` is truthy, giving `str(sub)`. |
| Rexec.ResolveBroker | ndp_ep/rexec_method.py:204-217 | External host/port win over the internal ones. Without an external URL, address and port are exactly those merged values, set or not. The external URL fills only missing parts, as `Rexec.BrokerFromExternalUrl` states. The API URL is the config's, else the default. |
| Rexec.BrokerFromExternalUrl | ndp_ep/rexec_method.py:211-216 | With an external URL and no ':' in it, address and port stay as given. With a ':', a missing address becomes the URL up to its last ':' and a missing port the text after it (no ':' there). With both missing, address + ":" + port gives the URL back. |
| Rexec.ConfigureCalls | ndp_ep/rexec_method.py:219-224 | Address and port are set iff truthy, once each, address first, and the port is stringified. `set_api_url` comes always and last. The length is one plus one per truthy part. |
| Rexec.ConfigureCallsOrder | ndp_ep/rexec_method.py:219-224 | At most three calls. Only address and port calls come before the API URL. |
| Rexec.PortStringified | ndp_ep/rexec_method.py:222 | A numeric external port reaches `set_remote_port` in decimal. |
| Rexec.RemoteFunc.constructor | ndp_ep/rexec_method.py:14-17 | The helper starts with no calls. |
| Rexec.RemoteFunc.Record | ndp_ep/rexec_method.py:82 | Appends exactly one call. |
| Rexec.RemoteFunc.Configure | ndp_ep/rexec_method.py:194-224 | Appends exactly `ConfigureCalls(config)` to the helper's calls. |
| Rexec.FetchRexecConfig | ndp_ep/rexec_method.py:174-192 | An error status gives the reply text, or the error when the text is empty. A non-JSON body gives "invalid JSON", iff it is not JSON. Otherwise the decoded value, an object or not. |
| Rexec.ConfigureFromServer | ndp_ep/rexec_method.py:93-95 | Sends the configuration GET. A failed fetch passes its error on, and a non-object configuration fails with `AttributeError`; in both cases the helper's calls are unchanged. Configures the helper iff the configuration is a JSON object. |
| Rexec.ConnectRemote | ndp_ep/rexec_method.py:81-95 | `set_api_url` always comes first. A missing requirements file fails with "Requirements file not found: " and the path, before any request, leaving only `set_api_url`. Otherwise the configuration GET is sent; a failed fetch passes its error on and a non-object configuration gives `AttributeError`, each after `set_api_url` and `set_environment`. Success iff both steps succeed; then the configuration calls follow. |
| Rexec.SetupRexecEnvironment | ndp_ep/rexec_method.py:30-95 | Each failure stops the sequence at its stage, with that stage's error: no module, no token, no `sub`, a missing requirements file (log: `set_api_url` only), a failed fetch or a non-object configuration (log: `set_api_url`, `set_environment`). Success iff every stage succeeds; then the helper got `set_api_url`, `set_environment`, then the configuration calls. |
| Pelican.FlagParam | ndp_ep/pelican_method.py:67 | `str(flag).lower()` is "true" iff the flag is set. |
| Pelican.ListFederations | ndp_ep/pelican_method.py:13-38 | A GET of `/pelican/federations`. Error statuses give the prefix and the detail. |
| Pelican.FlagQuery | ndp_ep/pelican_method.py:64-69 | The browse and download query: exactly path, federation and the one named flag, rendered "true"/"false". |
| Pelican.BrowsePelican | ndp_ep/pelican_method.py:40-82 | A 404 gives "Path not found: <path>". Other errors give the browse prefix and the detail. |
| Pelican.BrowseNotFoundIff | ndp_ep/pelican_method.py:80-81 | The path-not-found message appears iff the status is 404. |
| Pelican.InfoParams | ndp_ep/pelican_method.py:107-110 | The query is path and federation. |
| Pelican.GetPelicanInfo | ndp_ep/pelican_method.py:84-123 | A 404 gives "File not found: <path>". Other errors give the info prefix and the detail. |
| Pelican.InfoNotFoundIff | ndp_ep/pelican_method.py:121-122 | The file-not-found message appears iff the status is 404. |
| Pelican.DownloadPelican | ndp_ep/pelican_method.py:125-174 | A GET of `/pelican/download`. No status is singled out. Any success reply is handed back as it is, without decoding. |
| Pelican.PelicanDefaults | ndp_ep/pelican_method.py:40-45 | Without options: federation "osdf", detail "false" and stream "false". |
| Pelican.ImportPayload | ndp_ep/pelican_method.py:212-220 | URL and dataset are always present. Name and description are present iff given. |
| Pelican.ImportPelicanMetadata | ndp_ep/pelican_method.py:176-233 | A URL without "pelican://" is refused before any request. Otherwise the payload is POSTed, and a request is sent iff the scheme is right. |
| Pelican.ImportSchemeExamples | ndp_ep/pelican_method.py:209-210 | For any path, the "pelican://" URL goes out and the "https://" URL with the same path does not. |
| S3Objects.ListParams | ndp_ep/s3_objects_method.py:30-32 | `prefix` is present iff it is a non-empty string. |
| S3Objects.ListObjects | ndp_ep/s3_objects_method.py:13-43 | A GET of `/s3/objects/<bucket>`. Error statuses give the list prefix and the detail. |
| S3Objects.ListEmptyPrefix | ndp_ep/s3_objects_method.py:31 | An empty prefix is sent like no prefix, as an empty query. |
| S3Objects.UploadPayload | ndp_ep/s3_objects_method.py:68-69 | One file part in the field "file", named after the key, with the given bytes and content type, and `object_key` as the only form field. |
| S3Objects.UploadObject | ndp_ep/s3_objects_method.py:45-80 | A POST of the file to the bucket URL. Error statuses give the upload prefix and the detail. |
| S3Objects.ObjectCall | ndp_ep/s3_objects_method.py:82-182 | Download, delete and metadata go to `<bucket>/<key>[/metadata]`. A 404 names key and bucket; other errors give the operation prefix and the detail. A download hands back any success reply; delete and metadata raise the decoder's error on a non-JSON one. |
| S3Objects.ObjectNotFoundIff | ndp_ep/s3_objects_method.py:107-111 | The object-not-found message appears iff the status is 404, whatever the detail. |
| S3Objects.PresignedBody | ndp_ep/s3_objects_method.py:208-210 | `expiration` is present iff it is given and non-zero. |
| S3Objects.PresignedCall | ndp_ep/s3_objects_method.py:184-264 | A POST to `<bucket>/<key>/presigned-upload` or `/presigned-download` with the expiration body. No status is singled out. |
| S3Objects.PresignedZeroExpiration | ndp_ep/s3_objects_method.py:249-251 | Expiration 0 is sent like none: an empty object. |
| S3Objects.OnlyObjectOpsReportMissing | ndp_ep/s3_objects_method.py:38-43 | List, upload and presign never report a missing object. |
| S3Objects.UrlsUnderBucket | ndp_ep/s3_objects_method.py:164 | Every per-object URL starts with `<bucket>/<key>`. |
| S3Buckets.ListBuckets | ndp_ep/s3_buckets_method.py:13-33 | A GET of `/s3/buckets/`. Error statuses give the list prefix and the detail. |
| S3Buckets.CreateBody | ndp_ep/s3_buckets_method.py:50 | `{"name": n, **options}`: every option appears, and an option named "name" replaces the name. |
| S3Buckets.CreateBodyPlain | ndp_ep/s3_buckets_method.py:50 | Without options the body is the name alone. |
| S3Buckets.CreateBucket | ndp_ep/s3_buckets_method.py:35-60 | A POST of the body to `/s3/buckets/`. Error statuses give the create prefix and the detail. |
| S3Buckets.BucketCall | ndp_ep/s3_buckets_method.py:62-114 | Info and delete go to `/s3/buckets/<name>`. A 404 names the bucket; other errors give the operation prefix and the detail. |
| S3Buckets.BucketNotFoundIff | ndp_ep/s3_buckets_method.py:85-86 | The bucket-not-found message appears iff the status is 404. |
| S3Buckets.CollectionNeverNotFound | ndp_ep/s3_buckets_method.py:28-33 | List and create never report a missing bucket. |
| S3Buckets.CollectionUrlSlash | ndp_ep/s3_buckets_method.py:23 | The collection URL ends in '/'. |
| UserInfo.UserDetail | ndp_ep/get_user_info_method.py:41-46 | The detail is the decoded `detail` member, or "" when the body is not JSON, not an object, or has no `detail`. |
| UserInfo.GetUserInfo | ndp_ep/get_user_info_method.py:35-70 | A GET of `/user/info`. Transport and decoding failures give the "fetching" message; error statuses give their class's message. It succeeds iff the status is not an error and the body is JSON. |
| UserInfo.StatusMessageDetail | ndp_ep/get_user_info_method.py:48-62 | Without a detail, 401 and 403 use their default texts and 502 has none. A non-empty string detail is quoted. Other statuses give "Failed to fetch user info: " and the error. |
| UserInfo.UserInfoFailureClasses | ndp_ep/get_user_info_method.py:40-66 | The message start identifies the cause, iff in each case: 401, 403, 502, another error status, or a transport/decoding failure. |
| Registration.ClassifyFirstMatch | ndp_ep/register_service_method.py:52-68 | In the `if`/`elif` chain of substring tests, the first matching test decides. |
| Registration.ClassifyNoMatch | ndp_ep/register_service_method.py:67-68 | With no match, the message is the prefix and the detail. |
| Registration.ClassifyPrefixed | ndp_ep/register_s3_method.py:49-63 | When every fixed message carries the prefix, every outcome does. |
| Registration.Register | ndp_ep/register_url_method.py:37-63 | The data is POSTed unchanged with the `server` query. An error status gives the chain's message. |
| RegisterService.ServiceMessages | ndp_ep/register_service_method.py:52-68 | owner_org, then unconfigured server, then duplicate, else the detail. Every message starts with "Error creating service: ". |
| RegisterService.RegisterService | ndp_ep/register_service_method.py:12-68 | A POST to `/services`, server "local" by default. |
| RegisterService.ServiceErrorsPrefixed | ndp_ep/register_service_method.py:44-68 | Every refused registration carries the service prefix. |
| RegisterS3.S3Messages | ndp_ep/register_s3_method.py:49-63 | Missing organisation, then reserved key. Any other detail, "Invalid input" included, is quoted after the prefix. |
| RegisterS3.RegisterS3Link | ndp_ep/register_s3_method.py:12-63 | A POST to `/s3` with the `server` query. |
| RegisterS3.S3ErrorsPrefixed | ndp_ep/register_s3_method.py:41-63 | Every refused registration carries the S3 prefix. |
| RegisterUrl.UrlMessages | ndp_ep/register_url_method.py:51-63 | The organisation check wins over the taken name; any other detail is quoted after the prefix. |
| RegisterUrl.RegisterUrl | ndp_ep/register_url_method.py:12-63 | A POST to `/url` with the `server` query. |
| RegisterUrl.UrlErrorsPrefixed | ndp_ep/register_url_method.py:43-63 | Every refused registration carries the URL-resource prefix. |
| RegisterDataset.DatasetMessages | ndp_ep/register_dataset_method.py:54-65 | The unconfigured-server check wins over the duplicate; any other detail is quoted after the prefix. |
| RegisterDataset.RegisterGeneralDataset | ndp_ep/register_dataset_method.py:12-65 | A POST to `/dataset`, server "local" by default. |
| RegisterDataset.DatasetErrorsPrefixed | ndp_ep/register_dataset_method.py:46-65 | Every refused registration carries the dataset prefix. |

## Left out

- **HTTP and the network.** Real HTTP is not modelled: the session, connection handling, retries, default headers and response streaming (`iter_content` in the Pelican download). Each reply, or transport failure, is an input of type `Outcome`.
- **The streaming flag.** The `stream=` argument of the download's `session.get` is not part of `Request`. The `stream` query parameter is.
- **Success bodies.** A decodable success reply is handed back as the reply. The value `response.json()` returns is not examined further, except in the token exchange, the rexec configuration and the user information, where it decides the outcome. A non-JSON success body is modelled (the `DecodeError` outcome); only the decoder's own message is an input.
- **The non-JSON success body of `get_user_info`.** It is modelled as reported with the "fetching" message. This holds for `requests` 2.27 and later, where the decoder's error is itself a `RequestException`. The "parsing" branch (ndp_ep/get_user_info_method.py:67-70) is then never reached, so it is not modelled.
- **A non-string `detail`.** Wherever the handler quotes `detail` through an f-string (`Http.DetailOr`), a `detail` that is not a string is treated as absent. Python would print its `str()`, or fail the `in` test of the registration chains. `UserInfo` and `Resource` do model non-string details: get, patch and delete of a resource fail with `AttributeError`, and the resource search quotes the detail's `str()` (`Http.PyStr`).
- **Floating-point JSON.** `Json` has integers but no floating-point numbers. A float `detail`, a float broker port or a float `sub` claim, and the `str()` Python would print for them, are not represented.
- **`Http.PyStr`** renders lists and objects as "[]" and "{}" rather than with their contents.
- **`ClientBase.AccessToken`** reads only a string `access_token`. Any other JSON value counts as missing.
- **`Text.Lower`** lower-cases ASCII letters only. Python's `lower()` also folds other Unicode letters.
- **`ClientBase.HasScheme`** follows `urlparse`'s scheme rule. It does not model `urlparse` removing leading C0 controls and spaces, nor the tab and newline characters it drops.
- **`VersionConfig.ParseVersion`** accepts plain ASCII decimal digits only. Python's `int()` also takes a sign, surrounding white space, '_' separators and the decimal digits of other scripts ("١.٢.٣" parses in Python and is refused here).
- **Requirements paths.** `Path` normalisation and the file-system check are not modelled; `pathExists` is an input. The temporary file's name is an input too. The file's deletion after `set_environment` is not modelled, and neither is its `.txt` suffix.
- **Token verification.** The JWT signature check of `_decode_user_id` (ndp_ep/rexec_method.py:146-157) is a call into a foreign library. Its outcome is the input `claims`, which is `None` when verification fails.
- **The optional `rexec` import** (ndp_ep/rexec_method.py:14-17) is the input `installed`.
- **The inner workings of `remote_func`** are not modelled. It appears only as the log of calls it receives.
- **Token desync after a refused exchange.** When a login returns a JSON object without a usable token, the client keeps the new, empty token while the old `Authorization` header stays. `ClientBase.Client.GetToken` states this outright.
- **The `/status/` version probe and an `api_version` attribute** do not exist in ndp_ep/client_base.py, so they are not modelled. The same goes for a re-export of `remote_func` from the package.
- **Single-call wrappers.** Each is one request plus one substring check, with nothing further to state: the update, delete, organisation, Kafka, system-status and dataset-resource wrappers.
- **Other files.** The mixin composition in `api_client.py` and `__init__.py` is not modelled. Nor are the interactive scripts or the build and documentation configuration.
