/**
 * The registry's state and the handler that drives it: a content-addressed
 * map from digest to payload, the manifest and blob writers, and the `/v2/`
 * request handler.  Requests are served one at a time.
 */
module Registry {
  import opened Optional
  import opened Bytes
  import opened Digests
  import opened Dispatch
  import opened Paths

  const StatusOK: nat := 200
  const StatusCreated: nat := 201
  const StatusAccepted: nat := 202
  const StatusBadRequest: nat := 400
  const StatusNotFound: nat := 404
  const StatusInternalError: nat := 500

  const ManifestMediaType: string := "application/vnd.oci.image.manifest.v1+json"
  const ConfigMediaType: string := "application/vnd.cncf.helm.config.v1+json"
  const LayerMediaType: string := "application/vnd.cncf.helm.chart.content.v1.tar+gzip"
  const UploadLocation: string := "http://localhost:5000/v2/blobs/put/"
  const BlobLocation: string := "https://localhost:5000/v2/blobs/"
  const UnknownTypePrefix: string := "unknown request type: "

  datatype Config = Config(mediaType: string, digest: string, size: nat)
  datatype Layer = Layer(mediaType: string, digest: string, size: nat)
  datatype Manifest = Manifest(schemaVersion: int, config: Config, layers: seq<Layer>)

  /** What the handler writes after the status line; the manifest stays a value, not its JSON text. */
  datatype Body = NoBody | Raw(bytes: seq<byte>) | Text(message: string) | ManifestJson(manifest: Manifest)

  /** Headers in the order the handler adds them. */
  datatype Response = Response(status: nat, headers: seq<(string, string)>, body: Body)

  /** A handler either answers or panics (the server then drops the connection unanswered). */
  datatype Outcome = Sent(response: Response) | Panicked

  /** What the chart descriptor or the chart archive synthesis produced. */
  datatype Synthesized = Produced(bytes: seq<byte>) | Failed(error: string)

  /** What `writeManifest` and `writeBlob` report: a written response or an error for the caller. */
  datatype Written = Written(response: Response) | Error(message: string)

  /** The value of the first header named `name`. */
  function HeaderValue(headers: seq<(string, string)>, name: string): (v: Option<string>)
    ensures v.Some? <==> exists i :: 0 <= i < |headers| && headers[i].0 == name
    ensures v.Some? ==> exists i :: 0 <= i < |headers| && headers[i] == (name, v.value)
  {
    if headers == [] then None
    else if headers[0].0 == name then Some(headers[0].1)
    else
      var v := HeaderValue(headers[1..], name);
      assert forall i :: 0 <= i < |headers| - 1 ==> headers[1..][i] == headers[i + 1];
      v
  }

  /** The manifest for one chart: one config blob and one layer. */
  function ChartManifest(configDigest: string, chart: seq<byte>, layerDigest: string, archive: seq<byte>): (m: Manifest)
    ensures m.schemaVersion == 2 && |m.layers| == 1
    ensures m.config.mediaType == ConfigMediaType && m.layers[0].mediaType == LayerMediaType
    ensures m.config.digest == configDigest && m.config.size == |chart|
    ensures m.layers[0].digest == layerDigest && m.layers[0].size == |archive|
  {
    Manifest(2, Config(ConfigMediaType, configDigest, |chart|), [Layer(LayerMediaType, layerDigest, |archive|)])
  }

  /** The successful manifest answer: status 200, the OCI media type and the config digest as content digest. */
  function ManifestResponse(m: Manifest): (r: Response)
    ensures r.status == StatusOK && r.body == ManifestJson(m)
    ensures HeaderValue(r.headers, "content-type") == Some(ManifestMediaType)
    ensures HeaderValue(r.headers, "Docker-Content-Digest") == Some(m.config.digest)
  {
    Response(StatusOK, [("content-type", ManifestMediaType), ("Docker-Content-Digest", m.config.digest)], ManifestJson(m))
  }

  /** Status 500 with the error text as plain body. */
  function ErrorResponse(message: string): (r: Response)
    ensures r.status == StatusInternalError && r.headers == []
    ensures r.body == Text(message)
  {
    Response(StatusInternalError, [], Text(message))
  }

  /** Every digest the manifest refers to is a key of the blob map. */
  predicate References(m: Manifest, blobs: map<string, seq<byte>>) {
    m.config.digest in blobs && forall i :: 0 <= i < |m.layers| ==> m.layers[i].digest in blobs
  }

  class Registry {
    /** SHA-256, a foreign call: any function with 32-byte results. */
    const hash: HashFn
    /** The process-wide blob map, keyed by digest. */
    var blobs: map<string, seq<byte>>

    /** Content addressing: every key is the digest of the payload stored under it. */
    ghost predicate Valid()
      reads this
    {
      forall d :: d in blobs ==> d == DigestOf(hash, blobs[d])
    }

    constructor (hash: HashFn)
      ensures this.hash == hash && blobs == map[]
      ensures Valid()
    {
      this.hash := hash;
      blobs := map[];
    }

    /** Hashes a payload and stores it under its digest, as each half of writeManifest does. */
    method Store(data: seq<byte>) returns (digest: string)
      requires Valid()
      modifies this
      ensures Valid()
      ensures digest == DigestOf(hash, data)
      ensures blobs == old(blobs)[digest := data]
    {
      digest := DigestOf(hash, data);
      blobs := blobs[digest := data];
    }

    /**
     * Serves a manifest: synthesizes the chart descriptor, then the chart
     * archive, stores both, and only then writes the manifest response.
     */
    method WriteManifest(name: string, reference: string, chart: Synthesized, archive: Synthesized)
      returns (w: Written)
      requires Valid()
      modifies this
      ensures Valid()
      ensures chart.Failed? ==> w == Error(chart.error) && blobs == old(blobs)
      ensures chart.Produced? && archive.Failed? ==> w == Error(archive.error) && blobs == old(blobs)
      ensures chart.Produced? && archive.Produced? ==>
        var configDigest := DigestOf(hash, chart.bytes);
        var layerDigest := DigestOf(hash, archive.bytes);
        && blobs == old(blobs)[configDigest := chart.bytes][layerDigest := archive.bytes]
        && w == Written(ManifestResponse(ChartManifest(configDigest, chart.bytes, layerDigest, archive.bytes)))
        && References(w.response.body.manifest, blobs)
        && blobs[layerDigest] == archive.bytes
        && (hash(chart.bytes) != hash(archive.bytes) || chart.bytes == archive.bytes ==> blobs[configDigest] == chart.bytes)
    {
      if chart.Failed? {
        return Error(chart.error);
      }
      if archive.Failed? {
        return Error(archive.error);
      }
      var configDigest := Store(chart.bytes);
      var layerDigest := Store(archive.bytes);
      var manifest := ChartManifest(configDigest, chart.bytes, layerDigest, archive.bytes);
      DigestOfInjective(hash, chart.bytes, archive.bytes);
      w := Written(ManifestResponse(manifest));
    }

    /** Serves a blob: the stored payload with status 200, or an empty 404 when the digest is unknown. */
    function WriteBlob(name: string, digest: string): (r: Response)
      reads this
      ensures r.headers == []
      ensures r.status == StatusNotFound <==> digest !in blobs
      ensures digest !in blobs ==> r.body == NoBody
      ensures digest in blobs ==> r.status == StatusOK && r.body == Raw(blobs[digest])
    {
      if digest !in blobs then Response(StatusNotFound, [], NoBody)
      else Response(StatusOK, [], Raw(blobs[digest]))
    }

    /** A key that is not a well-formed digest is never in a content-addressed store. */
    lemma MalformedDigestNotFound(name: string, digest: string)
      requires Valid()
      requires !IsDigest(digest)
      ensures WriteBlob(name, digest).status == StatusNotFound
    {
    }

    /** The `/v2/` handler. */
    method HandleV2(req: Request, uploadId: string, chart: Synthesized, archive: Synthesized)
      returns (out: Outcome)
      requires Valid()
      modifies this
      ensures Valid()
      ensures req.verb == "POST" ==>
        out == Sent(Response(StatusAccepted, [("Location", UploadLocation + uploadId)], NoBody))
        && blobs == old(blobs)
      ensures req.verb == "PUT" ==>
        out == Sent(Response(StatusCreated,
                             [("location", BlobLocation + req.digestParam), ("Docker-Content-Digest", req.digestParam)],
                             NoBody))
        && blobs == old(blobs)
      ensures req.verb == "HEAD" ==> out == Sent(Response(StatusOK, [], NoBody)) && blobs == old(blobs)
      ensures Classify(req).BadRequest? ==> out == Sent(Response(StatusBadRequest, [], NoBody)) && blobs == old(blobs)
      ensures Classify(req).NameOutOfRange? ==> out == Panicked && blobs == old(blobs)
      ensures Classify(req).Resolve? ==>
        var t := Classify(req).target;
        && (t.objType == "blobs" ==> out == Sent(old(WriteBlob(t.name, t.reference))) && blobs == old(blobs))
        && (t.objType !in {"manifests", "blobs"} ==>
              out == Sent(ErrorResponse(UnknownTypePrefix + t.objType)) && blobs == old(blobs))
        && (t.objType == "manifests" && chart.Failed? ==>
              out == Sent(ErrorResponse(chart.error)) && blobs == old(blobs))
        && (t.objType == "manifests" && chart.Produced? && archive.Failed? ==>
              out == Sent(ErrorResponse(archive.error)) && blobs == old(blobs))
        && (t.objType == "manifests" && chart.Produced? && archive.Produced? ==>
              var configDigest := DigestOf(hash, chart.bytes);
              var layerDigest := DigestOf(hash, archive.bytes);
              && blobs == old(blobs)[configDigest := chart.bytes][layerDigest := archive.bytes]
              && out == Sent(ManifestResponse(ChartManifest(configDigest, chart.bytes, layerDigest, archive.bytes))))
    {
      var route := Classify(req);
      match route
      case StartUpload =>
        out := Sent(Response(StatusAccepted, [("Location", UploadLocation + uploadId)], NoBody));
      case CompleteUpload(digest) =>
        out := Sent(Response(StatusCreated, [("location", BlobLocation + digest), ("Docker-Content-Digest", digest)], NoBody));
      case Probe =>
        out := Sent(Response(StatusOK, [], NoBody));
      case BadRequest =>
        out := Sent(Response(StatusBadRequest, [], NoBody));
      case NameOutOfRange =>
        out := Panicked;
      case Resolve(t) =>
        var w: Written;
        if t.objType == "manifests" {
          w := WriteManifest(t.name, t.reference, chart, archive);
        } else if t.objType == "blobs" {
          w := Written(WriteBlob(t.name, t.reference));
        } else {
          w := Error(UnknownTypePrefix + t.objType);
        }
        match w
        case Written(response) => out := Sent(response);
        case Error(message) => out := Sent(ErrorResponse(message));
    }
  }

  /**
   * A client pulling a chart from a repository whose name may span several
   * segments (`names`, joined with '/'): GET the manifest, then GET the config blob and
   * the layer blob by the digests it names.  Both come back with the bytes
   * that were synthesized, provided the two payloads do not collide under
   * the hash.
   */
  method PullChart(reg: Registry, names: seq<string>, reference: string, chart: seq<byte>, archive: seq<byte>, uploadId: string)
    returns (manifestOut: Outcome, configOut: Outcome, layerOut: Outcome)
    requires reg.Valid()
    requires |names| >= 1 && forall i :: 0 <= i < |names| ==> '/' !in names[i]
    requires '/' !in reference
    requires reg.hash(chart) != reg.hash(archive) || chart == archive
    modifies reg
    ensures reg.Valid()
    ensures manifestOut.Sent? && manifestOut.response.status == StatusOK
    ensures manifestOut.response.body.ManifestJson?
    ensures configOut == Sent(Response(StatusOK, [], Raw(chart)))
    ensures layerOut == Sent(Response(StatusOK, [], Raw(archive)))
  {
    ghost var configDigest := DigestOf(reg.hash, chart);
    ghost var layerDigest := DigestOf(reg.hash, archive);
    DigestOfInjective(reg.hash, chart, archive);
    DigestHasNoSlash(configDigest);
    DigestHasNoSlash(layerDigest);
    var name := Join(names, '/');

    var manifestReq := Request("GET", ObjectPath(name, "manifests", reference), "");
    ParseObjectPath(names, "manifests", reference);
    assert Classify(manifestReq) == Resolve(Target(name, "manifests", reference));
    manifestOut := reg.HandleV2(manifestReq, uploadId, Produced(chart), Produced(archive));
    var m := manifestOut.response.body.manifest;
    assert m.config.digest == configDigest && m.layers[0].digest == layerDigest;
    assert reg.blobs[configDigest] == chart && reg.blobs[layerDigest] == archive;

    var configReq := Request("GET", ObjectPath(name, "blobs", m.config.digest), "");
    ParseObjectPath(names, "blobs", m.config.digest);
    assert Classify(configReq) == Resolve(Target(name, "blobs", configDigest));
    configOut := reg.HandleV2(configReq, uploadId, Produced(chart), Produced(archive));

    var layerReq := Request("GET", ObjectPath(name, "blobs", m.layers[0].digest), "");
    ParseObjectPath(names, "blobs", m.layers[0].digest);
    assert Classify(layerReq) == Resolve(Target(name, "blobs", layerDigest));
    layerOut := reg.HandleV2(layerReq, uploadId, Produced(chart), Produced(archive));
  }
}
