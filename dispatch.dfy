/**
 * The classification half of the `/v2/` handler: which of its branches a
 * request takes, decided by the method first and then by the shape of the
 * URL path.  No branch here touches the blob store.
 */
module Dispatch {
  import opened Paths

  /**
   * The parts of an HTTP request the handler looks at: the method (`verb`), the
   * decoded URL path and the value of the `digest` query parameter (the
   * empty string when it is absent, as `Query().Get` gives it).
   */
  datatype Request = Request(verb: string, path: string, digestParam: string)

  /** What a GET-style path names: repository, object kind and reference. */
  datatype Target = Target(name: string, objType: string, reference: string)

  datatype Route =
    | StartUpload                     // POST
    | CompleteUpload(digest: string)  // PUT, echoing the digest parameter
    | Probe                           // HEAD
    | BadRequest                      // fewer than three path tokens
    | NameOutOfRange                  // three tokens: the name slice tokens[2:1] panics
    | Resolve(target: Target)

  /**
   * Path decomposition: split on '/', the last token is the reference, the
   * one before it the object type and tokens 2 .. len-3 joined with '/' the
   * repository name.
   */
  function ParsePath(path: string): (r: Route)
    ensures r.BadRequest? || r.NameOutOfRange? || r.Resolve?
    ensures r.BadRequest? <==> Count(path, '/') < 2
    ensures r.NameOutOfRange? <==> Count(path, '/') == 2
    ensures r.Resolve? ==> '/' !in r.target.objType && '/' !in r.target.reference
  {
    var tokens := Split(path, '/');
    var n := |tokens|;
    if n < 3 then BadRequest
    else if n - 2 < 2 then NameOutOfRange
    else Resolve(Target(Join(tokens[2..n - 2], '/'), tokens[n - 2], tokens[n - 1]))
  }

  /** The method chain: POST, then PUT, then HEAD, then the path. */
  function Classify(req: Request): (r: Route)
    ensures r.StartUpload? <==> req.verb == "POST"
    ensures r.CompleteUpload? <==> req.verb == "PUT"
    ensures r.CompleteUpload? ==> r.digest == req.digestParam
    ensures r.Probe? <==> req.verb == "HEAD"
    ensures req.verb !in {"POST", "PUT", "HEAD"} ==> r == ParsePath(req.path)
  {
    if req.verb == "POST" then StartUpload
    else if req.verb == "PUT" then CompleteUpload(req.digestParam)
    else if req.verb == "HEAD" then Probe
    else ParsePath(req.path)
  }

  /**
   * A path joined from separator-free tokens decomposes into exactly the
   * tokens it was built from, whatever the number of name segments; with
   * only three tokens the name slice is out of range.
   */
  lemma ParseJoined(tokens: seq<string>)
    requires |tokens| >= 3
    requires forall i :: 0 <= i < |tokens| ==> '/' !in tokens[i]
    ensures |tokens| == 3 ==> ParsePath(Join(tokens, '/')) == NameOutOfRange
    ensures |tokens| >= 4 ==>
      ParsePath(Join(tokens, '/'))
      == Resolve(Target(Join(tokens[2..|tokens| - 2], '/'), tokens[|tokens| - 2], tokens[|tokens| - 1]))
  {
    SplitJoin(tokens, '/');
    ParseTokens(Join(tokens, '/'), tokens);
  }

  /** ParsePath read off a known token list. */
  lemma ParseTokens(path: string, tokens: seq<string>)
    requires Split(path, '/') == tokens && |tokens| >= 3
    ensures |tokens| == 3 ==> ParsePath(path) == NameOutOfRange
    ensures |tokens| >= 4 ==>
      ParsePath(path) == Resolve(Target(Join(tokens[2..|tokens| - 2], '/'), tokens[|tokens| - 2], tokens[|tokens| - 1]))
  {
  }

  /**
   * Every path the server routes to this handler starts with "/v2/" and
   * therefore has at least three tokens: the 400 branch is unreachable.
   */
  lemma MountedPathNotBadRequest(path: string)
    requires |path| >= 4 && path[..4] == "/v2/"
    ensures !ParsePath(path).BadRequest?
  {
    assert path[0] == '/' && path[3] == '/';
    assert Count(path, '/') == 1 + Count(path[1..], '/');
    assert Count(path[1..], '/') == Count(path[2..], '/');
    assert Count(path[2..], '/') == Count(path[3..], '/');
    assert path[3..][0] == '/';
  }

  /**
   * "/v2/a/b/c/manifests/v1" names repository "a/b/c".  The path is a
   * parameter pinned to the literal so that the verifier does not evaluate
   * Split on the whole literal string eagerly.
   */
  lemma ExampleMultiSegmentName(path: string)
    requires path == "/v2/a/b/c/manifests/v1"
    ensures ParsePath(path) == Resolve(Target("a/b/c", "manifests", "v1"))
  {
    var names := ["a", "b", "c"];
    assert Join(names[2..], '/') == "c";
    assert Join(names[1..], '/') == "b/c";
    assert Join(names, '/') == "a/b/c";
    assert ObjectPath("a/b/c", "manifests", "v1") == path;
    ParseObjectPath(names, "manifests", "v1");
  }

  /**
   * A mounted path with a single segment after the prefix, "/v2/" itself
   * included, passes the length check with three tokens and then reaches
   * the out-of-range name slice.
   */
  lemma MountedSingleSegment(segment: string)
    requires '/' !in segment
    ensures ParsePath("/v2/" + segment) == NameOutOfRange
  {
    var tokens := ["", "v2", segment];
    assert Join(tokens[2..], '/') == segment;
    assert Join(tokens[1..], '/') == "v2/" + segment;
    assert Join(tokens, '/') == "/v2/" + segment;
    ParseJoined(tokens);
  }

  /**
   * "/v2/onlyone" reaches the out-of-range slice, not the 400 branch.  The
   * path is a parameter for the same reason as above.
   */
  lemma ExampleOnlyOne(path: string)
    requires path == "/v2/onlyone"
    ensures ParsePath(path) == NameOutOfRange
  {
    assert path == "/v2/" + "onlyone";
    MountedSingleSegment("onlyone");
  }

  /** "/v2/<name>/<objType>/<reference>"; the name may span several segments. */
  function ObjectPath(name: string, objType: string, reference: string): string {
    "/v2/" + name + "/" + objType + "/" + reference
  }

  /** The request path a client builds from repository-name segments, object type and reference parses back into them. */
  lemma ParseObjectPath(names: seq<string>, objType: string, reference: string)
    requires |names| >= 1
    requires forall i :: 0 <= i < |names| ==> '/' !in names[i]
    requires '/' !in objType && '/' !in reference
    ensures ParsePath(ObjectPath(Join(names, '/'), objType, reference))
         == Resolve(Target(Join(names, '/'), objType, reference))
  {
    var path := ObjectPath(Join(names, '/'), objType, reference);
    var tokens := ObjectTokens(names, objType, reference);
    SplitJoin(tokens, '/');
    ParseTokens(path, tokens);
  }

  /** The tokens of an object path. */
  function ObjectTokens(names: seq<string>, objType: string, reference: string): (tokens: seq<string>)
    requires |names| >= 1
    requires forall i :: 0 <= i < |names| ==> '/' !in names[i]
    requires '/' !in objType && '/' !in reference
    ensures |tokens| == |names| + 4
    ensures forall i :: 0 <= i < |tokens| ==> '/' !in tokens[i]
    ensures tokens[2..|tokens| - 2] == names
    ensures tokens[|tokens| - 2] == objType && tokens[|tokens| - 1] == reference
    ensures Join(tokens, '/') == ObjectPath(Join(names, '/'), objType, reference)
  {
    var head, tail := ["", "v2"], [objType, reference];
    var tokens := head + names + tail;
    JoinObjectTokens(head, names, tail);
    forall i | 0 <= i < |tokens|
      ensures '/' !in tokens[i]
    {
      if i < 2 {
        assert tokens[i] == head[i];
      } else if i < 2 + |names| {
        assert tokens[i] == names[i - 2];
      } else {
        assert tokens[i] == tail[i - 2 - |names|];
      }
    }
    tokens
  }

  lemma JoinObjectTokens(head: seq<string>, names: seq<string>, tail: seq<string>)
    requires |names| >= 1 && head == ["", "v2"] && |tail| == 2
    ensures Join(head + names + tail, '/') == ObjectPath(Join(names, '/'), tail[0], tail[1])
  {
    assert Join(head, '/') == "/v2";
    assert Join(tail, '/') == tail[0] + "/" + tail[1];
    JoinAppend(head, names, '/');
    JoinAppend(head + names, tail, '/');
  }
}
