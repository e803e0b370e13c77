# virtual-helm: a verified model of the stub OCI registry

virtual-helm is a single Go program that pretends to be an OCI/Helm chart
registry. It keeps one process-wide map, `blobs`, from content digest to
payload bytes, and answers every request under `/v2/` from one handler,
`handleV2`:

- POST starts an upload (202 and a `Location` with a fresh upload id);
- PUT completes one (201, echoing the `digest` query value);
- HEAD always answers 200;
- anything else splits the URL path on `/`: the last token is the
  reference, the one before it the object type, and the tokens in between
  the repository name. `manifests` synthesizes a chart descriptor and a
  chart archive, stores both under their SHA-256 digests and answers with
  an OCI manifest naming them; `blobs` looks the reference up in the map
  (404 when absent); any other type is a 500 "unknown request type".

This project models that core in Dafny and proves:

- the content-addressing invariant of the map;
- the digest format and its injectivity;
- the split/join round trips behind path decomposition;
- the routing outcome of every request, and what each route does to the map.

Layout, one module per file:

- `bytes.dfy` (`Bytes`): Go's `byte`.
- `option.dfy` (`Optional`): an option type.
- `hex.dfy` (`Hex`): the `%x` rendering of a byte slice, with a parser as its partner.
- `digests.dfy` (`Digests`): `"sha256:" + %x(hash)`, its format, and its injectivity in the hash.
- `paths.dfy` (`Paths`): `strings.Split` and `strings.Join` for a one-character separator.
- `dispatch.dfy` (`Dispatch`): the pure classification of a request. The method comes first, then the shape of the path.
- `registry.dfy` (`Registry`): the class `Registry`, holding the `blobs` map. Its methods are `Store`, `WriteManifest` and `HandleV2`, and it has the read-only `WriteBlob`. The module also has the response and manifest datatypes and a client scenario, `PullChart`.

The class invariant `Valid()` states content addressing: every key is the
digest of the payload stored under it. Every method that changes the map
keeps this invariant.

SHA-256 is a parameter of the registry: any function with 32-byte results.
Nothing is assumed about collisions. Where a property needs the chart and
its archive not to collide, the contract says so.

On a path with exactly three tokens, such as `/v2/onlyone` or `/v2/`
itself, the length check `len(tokens) < 3` lets the request through. The
name slice `tokens[2:len(tokens)-2]` is then `tokens[2:1]`, and Go panics.
The 400 answer is never reached for such a path. The model follows the
code: such a request ends in `Outcome.Panicked`. net/http recovers from
the panic and drops the connection unanswered.

Because the handler is mounted at `/v2/`, every path it sees has at least
three tokens. `MountedPathNotBadRequest` proves that the 400 branch is
therefore unreachable.

## Model

| member | source | states |
|---|---|---|
| `Hex.ToHex` | virtual-helm.go:113 | `%x` gives exactly two characters per byte, each a lower-case hexadecimal digit |
| `Hex.FromHexToHex` | virtual-helm.go:113 | parsing the `%x` rendering of any byte string gives that byte string back |
| `Hex.ToHexFromHex` | virtual-helm.go:119 | every string the parser accepts is the `%x` rendering of the bytes it returns (the other direction of the round trip) |
| `Hex.ToHexInjective` | virtual-helm.go:113 | two byte strings render to the same text exactly when they are equal |
| `Digests.DigestOf` | virtual-helm.go:111-113 | a digest is `sha256:` followed by 64 lower-case hex digits, for every payload including the empty one |
| `Digests.ParseDigestOf` | virtual-helm.go:111-113 | the hash bytes can be read back from the digest of any payload |
| `Digests.DigestOfInjective` | virtual-helm.go:111-120 | two payloads get the same digest key exactly when their hashes are equal |
| `Digests.DigestHasNoSlash` | virtual-helm.go:187 | a well-formed digest contains no `/`, so it is one path token and can serve as the reference |
| `Paths.Split` | virtual-helm.go:181 | splitting gives one more token than there are separators, and no token contains the separator |
| `Paths.Join` | virtual-helm.go:189 | the joined string is the pieces plus exactly one separator between each two neighbouring pieces (its length is the pieces' total plus the piece count minus one) |
| `Paths.JoinSplit` | virtual-helm.go:181 | joining the tokens of a split with the separator restores the string |
| `Paths.SplitJoin` | virtual-helm.go:189 | splitting the join of a non-empty list of separator-free tokens gives the list back |
| `Paths.JoinAppend` | virtual-helm.go:189 | the join of two non-empty lists is the two joins with one separator between them |
| `Dispatch.ParsePath` | virtual-helm.go:181-189 | 400 exactly when the path has fewer than two `/`; the out-of-range name slice exactly when it has two; otherwise a target whose type and reference are single tokens |
| `Dispatch.Classify` | virtual-helm.go:160-181 | POST, PUT and HEAD each get their own route, with POST checked first, then PUT, then HEAD; PUT carries the `digest` query value; every other method is routed by its path |
| `Dispatch.ParseJoined` | virtual-helm.go:181-189 | a path joined from separator-free tokens yields reference = last token, type = second-to-last, name = tokens 2 .. len-3 joined with `/`; with three tokens, the slice is out of range |
| `Dispatch.ParseObjectPath` | virtual-helm.go:187-189 | `/v2/<name segments>/<type>/<reference>` decomposes into exactly that name, type and reference, for any number of name segments |
| `Dispatch.MountedPathNotBadRequest` | virtual-helm.go:182-185 | no path starting with `/v2/` reaches the 400 branch |
| `Dispatch.MountedSingleSegment` | virtual-helm.go:182-189 | `/v2/<segment>`, `/v2/` included, passes the length check and reaches the out-of-range name slice |
| `Dispatch.ExampleMultiSegmentName` | virtual-helm.go:187-189 | `/v2/a/b/c/manifests/v1` gives name `a/b/c`, type `manifests`, reference `v1` |
| `Dispatch.ExampleOnlyOne` | virtual-helm.go:182-189 | `/v2/onlyone` is not answered 400: it reaches the out-of-range slice |
| `Registry.ChartManifest` | virtual-helm.go:122-134 | the manifest has schema version 2, a config of media type `application/vnd.cncf.helm.config.v1+json` with the chart's digest and size, and exactly one layer of media type `application/vnd.cncf.helm.chart.content.v1.tar+gzip` with the archive's digest and size |
| `Registry.ManifestResponse` | virtual-helm.go:136-141 | status 200, content type `application/vnd.oci.image.manifest.v1+json`, `Docker-Content-Digest` equal to the manifest's config digest |
| `Registry.ErrorResponse` | virtual-helm.go:202-204 | an error is answered with status 500, no headers, and the error text verbatim as the body |
| `Registry.Registry.constructor` | virtual-helm.go:18 | the store starts empty and content-addressed |
| `Registry.Registry.Store` | virtual-helm.go:111-120 | the payload is stored under its own digest, no other key changes, and content addressing is kept |
| `Registry.Registry.WriteManifest` | virtual-helm.go:98-144 | a failed descriptor or archive synthesis returns its error with the store untouched; otherwise both payloads are stored under their digests, nothing else changes, every digest the manifest names is in the store, the layer digest maps to the archive, and the config digest maps to the chart unless the two payloads collide |
| `Registry.Registry.WriteBlob` | virtual-helm.go:146-156 | 404 with no body exactly when the digest is absent; otherwise 200 with exactly the stored bytes; never changes the store |
| `Registry.Registry.MalformedDigestNotFound` | virtual-helm.go:146-151 | in a content-addressed store, a reference that is not a well-formed digest always gets 404 |
| `Registry.Registry.HandleV2` | virtual-helm.go:158-207 | POST gives 202 with the upload `Location`, whatever the path. Otherwise PUT gives 201 echoing the digest in `location` and `Docker-Content-Digest`. Otherwise HEAD gives 200. The too-short path gives 400, and the three-token path panics. `blobs` answers as `WriteBlob`, an unknown type gives 500 `unknown request type: <type>`, and `manifests` answers as `WriteManifest`, with a synthesis error as a 500 body. Only a successful manifest changes the store, and content addressing is kept |
| `Registry.PullChart` | virtual-helm.go:122-155 | for any repository name of one or more segments, GET of a manifest followed by GET of the two digests it names returns the chart and the archive bytes, when they do not collide under the hash |

## Left out

- `main`, `http.HandleFunc` and `ListenAndServe` (virtual-helm.go:209-218) are server plumbing. Only the effect of mounting the handler at `/v2/` is modelled, as the precondition of `MountedPathNotBadRequest`.
- Logging with `fmt.Println` and `fmt.Printf` throughout is output only.
- `getChart` (virtual-helm.go:47-58) reads the wall clock and calls `json.Marshal`. It enters the model as an input: produced bytes or an error.
- `getChartContent` (virtual-helm.go:60-96) is built by the tar and gzip library writers. It enters the model as an input: produced bytes or an error.
- The JSON encoding of the manifest (virtual-helm.go:140-141) is library code. The response body carries the `Manifest` value itself.
- SHA-256 itself is a foreign call. It is a parameter of the registry, and any function with 32-byte results may be used.
- `uuid.NewString()` is a foreign call. The upload id is a parameter of `HandleV2`.
- URL parsing is library code. `HandleV2` takes the decoded path and the value `Query().Get("digest")` returns, which is empty when the parameter is absent.
- The PUT body is drained and printed (virtual-helm.go:171-172), which is stream I/O. Its bytes are discarded, so the store is not affected.
- net/http behaviour below the handler is not modelled:
  - header-name canonicalisation, so headers keep the spelling the handler uses;
  - automatic `Content-Type` sniffing and `Content-Length`;
  - panic recovery, beyond recording that the request ends unanswered (`Outcome.Panicked`).
- The unsynchronised global map can be reached by concurrent requests. Requests are served one at a time in the model.
- `Registry.Registry.WriteManifest`: says the config digest maps to the chart bytes only when the chart and the archive do not have equal hashes and differ. With a colliding hash, the second store overwrites the first under the shared key. SHA-256 collision resistance is not part of the model.
- `Registry.PullChart`: requires the same absence of a collision between the chart and the archive, for the same reason.
