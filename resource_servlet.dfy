/**
 * WrappingResourceInServlet: a servlet serving the resources of an HttpContext below a name.
 * The request's path info picks the resource; a missing resource is answered with 404; otherwise
 * the connection's encoding, type and length are copied into the response and, unless the length
 * is negative, the resource's bytes are copied to the response's output stream through a
 * 4096-byte buffer.
 */
module ResourceServlet {
  import opened Wrappers
  import opened Strings

  newtype byte = x: int | 0 <= x < 256

  /** Size of the copy buffer. */
  const BUFFER: nat := 4096

  /** HttpServletResponse.SC_NOT_FOUND. */
  const SC_NOT_FOUND: int := 404

  /** What the URL connection of a resource reports, and the bytes its input stream yields. */
  datatype Resource = Resource(
    contentEncoding: Option<string>,
    contentType: Option<string>,
    contentLength: int,
    content: seq<byte>)

  /** The bytes of a sequence of written chunks, in order. */
  function Flatten(chunks: seq<seq<byte>>): seq<byte>
    decreases |chunks|
  {
    if chunks == [] then [] else Flatten(chunks[..|chunks| - 1]) + chunks[|chunks| - 1]
  }

  lemma FlattenSnoc(chunks: seq<seq<byte>>, c: seq<byte>)
    ensures Flatten(chunks + [c]) == Flatten(chunks) + c
  {
    assert (chunks + [c])[..|chunks|] == chunks;
  }

  /** Every chunk has between 1 and BUFFER bytes. */
  predicate BoundedChunks(chunks: seq<seq<byte>>) {
    forall i :: 0 <= i < |chunks| ==> 0 < |chunks[i]| <= BUFFER
  }

  /** The requested name: no path info is the empty name, and one leading slash is dropped. */
  function RequestedName(pathInfo: Option<string>): (r: string)
    ensures pathInfo.None? ==> r == ""
    ensures pathInfo.Some? && StartsWith(pathInfo.value, "/") ==> "/" + r == pathInfo.value
    ensures pathInfo.Some? && !StartsWith(pathInfo.value, "/") ==> r == pathInfo.value
  {
    match pathInfo
    case None => ""
    case Some(p) =>
      if StartsWith(p, "/") then
        assert p == [p[0]] + p[1..];
        p[1..]
      else p
  }

  /** The path looked up in the HttpContext: the servlet's name, a slash, the requested name. */
  function ResourcePath(name: string, pathInfo: Option<string>): (r: string)
    ensures |r| == |name| + 1 + |RequestedName(pathInfo)|
    ensures r[..|name|] == name && r[|name|] == '/' && r[|name| + 1..] == RequestedName(pathInfo)
  {
    name + "/" + RequestedName(pathInfo)
  }

  /** What doGet leaves in the response. */
  datatype Reply =
    | NotFound
    | Served(characterEncoding: Option<string>, contentType: Option<string>, contentLength: int, body: seq<byte>)

  /** The reply doGet produces when the context maps resource paths to resources as `getResource` does. */
  function Serve(name: string, getResource: string -> Option<Resource>, pathInfo: Option<string>): (r: Reply)
    ensures r.NotFound? <==> getResource(ResourcePath(name, pathInfo)).None?
    ensures r.Served? ==>
      var res := getResource(ResourcePath(name, pathInfo)).value;
      && r.characterEncoding == res.contentEncoding
      && r.contentType == res.contentType
      && r.contentLength == res.contentLength
      && (res.contentLength < 0 ==> r.body == [])
      && (res.contentLength >= 0 ==> r.body == res.content)
  {
    match getResource(ResourcePath(name, pathInfo))
    case None => NotFound
    case Some(res) =>
      Served(res.contentEncoding, res.contentType, res.contentLength,
             if res.contentLength >= 0 then res.content else [])
  }

  /** The input stream of a URL connection: a byte sequence and a read position. */
  class InputStream {
    const data: seq<byte>
    var pos: nat

    ghost predicate Valid()
      reads this
    {
      pos <= |data|
    }

    constructor (data: seq<byte>)
      ensures Valid() && this.data == data && pos == 0
    {
      this.data := data;
      pos := 0;
    }

    /**
     * InputStream.read(b, off, len) with len > 0: -1 at end of stream, otherwise some bytes, at least
     * one and at most len, copied into b from offset off. How many is the stream's choice.
     */
    method Read(b: array<byte>, off: nat, len: nat) returns (n: int)
      requires Valid() && 0 < len && off + len <= b.Length
      modifies this, b
      ensures Valid()
      ensures old(pos) == |data| ==> n == -1 && pos == old(pos)
      ensures old(pos) < |data| ==> 1 <= n <= len && pos == old(pos) + n && b[off..off + n] == data[old(pos)..pos]
    {
      if pos == |data| {
        return -1;
      }
      n := if |data| - pos < len then |data| - pos else len;
      forall i | 0 <= i < n {
        b[off + i] := data[pos + i];
      }
      pos := pos + n;
    }
  }

  /** The response's output stream: the chunks written to it, and how many of them were flushed. */
  class OutputStream {
    var chunks: seq<seq<byte>>
    var flushed: nat

    constructor ()
      ensures chunks == [] && flushed == 0
    {
      chunks := [];
      flushed := 0;
    }

    method Write(b: array<byte>, off: nat, len: nat)
      requires off + len <= b.Length
      modifies this
      ensures chunks == old(chunks) + [b[off..off + len]] && flushed == old(flushed)
    {
      chunks := chunks + [b[off..off + len]];
    }

    method Flush()
      modifies this
      ensures chunks == old(chunks) && flushed == |chunks|
    {
      flushed := |chunks|;
    }
  }

  /** The parts of HttpServletResponse that doGet sets. */
  class HttpResponse {
    var error: Option<int>
    var characterEncoding: Option<string>
    var contentType: Option<string>
    var contentLength: Option<int>
    const out: OutputStream

    constructor ()
      ensures error.None? && characterEncoding.None? && contentType.None? && contentLength.None?
      ensures fresh(out) && out.chunks == []
    {
      error := None;
      characterEncoding := None;
      contentType := None;
      contentLength := None;
      out := new OutputStream();
    }
  }

  /** The copy loop: every byte of `input` reaches `out`, in order, in chunks of at most BUFFER bytes. */
  method CopyStream(input: InputStream, out: OutputStream) returns (ghost written: seq<seq<byte>>)
    requires input.Valid() && input.pos == 0
    modifies input, out
    ensures input.Valid() && input.pos == |input.data|
    ensures out.chunks == old(out.chunks) + written
    ensures Flatten(written) == input.data && BoundedChunks(written)
  {
    var buffer := new byte[BUFFER];
    written := [];
    ghost var done := 0;
    var read := input.Read(buffer, 0, buffer.Length);
    while read != -1
      invariant input.Valid() && done <= input.pos
      invariant out.chunks == old(out.chunks) + written && BoundedChunks(written)
      invariant Flatten(written) == input.data[..done]
      invariant read == -1 ==> done == input.pos == |input.data|
      invariant read != -1 ==> done + read == input.pos && 1 <= read <= BUFFER
      invariant read != -1 ==> buffer[..read] == input.data[done..input.pos]
      decreases |input.data| - done
    {
      out.Write(buffer, 0, read);
      CopyStep(input.data, written, done, input.pos);
      written := written + [buffer[..read]];
      done := input.pos;
      out.Flush();
      read := input.Read(buffer, 0, buffer.Length);
    }
    assert input.data[..done] == input.data;
  }

  /** Writing the bytes between `done` and `pos` after those before `done` gives those before `pos`. */
  lemma CopyStep(data: seq<byte>, written: seq<seq<byte>>, done: nat, pos: nat)
    requires done <= pos <= |data| && Flatten(written) == data[..done]
    ensures Flatten(written + [data[done..pos]]) == data[..pos]
  {
    FlattenSnoc(written, data[done..pos]);
    assert data[..pos] == data[..done] + data[done..pos];
  }

  class WrappingResourceInServlet {
    const name: string
    /** HttpContext.getResource. */
    const getResource: string -> Option<Resource>

    constructor (name: string, getResource: string -> Option<Resource>)
      ensures this.name == name && this.getResource == getResource
    {
      this.name := name;
      this.getResource := getResource;
    }

    /** doGet: the response ends up as Serve describes, the body in chunks of at most BUFFER bytes. */
    method DoGet(pathInfo: Option<string>, resp: HttpResponse)
      modifies resp, resp.out
      ensures match Serve(name, getResource, pathInfo)
        case NotFound =>
          && resp.error == Some(SC_NOT_FOUND)
          && resp.characterEncoding == old(resp.characterEncoding)
          && resp.contentType == old(resp.contentType)
          && resp.contentLength == old(resp.contentLength)
          && resp.out.chunks == old(resp.out.chunks)
        case Served(encoding, contentType, contentLength, body) =>
          && resp.error == old(resp.error)
          && resp.characterEncoding == encoding
          && resp.contentType == contentType
          && resp.contentLength == Some(contentLength)
          && |old(resp.out.chunks)| <= |resp.out.chunks| && resp.out.chunks[..|old(resp.out.chunks)|] == old(resp.out.chunks)
          && Flatten(resp.out.chunks[|old(resp.out.chunks)|..]) == body
          && BoundedChunks(resp.out.chunks[|old(resp.out.chunks)|..])
    {
      var requestedName: string;
      if pathInfo.None? {
        requestedName := "";
      } else if StartsWith(pathInfo.value, "/") {
        requestedName := pathInfo.value[1..];
      } else {
        requestedName := pathInfo.value;
      }
      var resourcePath := name + "/" + requestedName;
      var url := getResource(resourcePath);
      if url.None? {
        resp.error := Some(SC_NOT_FOUND);
        return;
      }
      var connection := url.value;
      resp.characterEncoding := connection.contentEncoding;
      resp.contentType := connection.contentType;
      resp.contentLength := Some(connection.contentLength);
      if connection.contentLength >= 0 {
        var input := new InputStream(connection.content);
        ghost var written := CopyStream(input, resp.out);
        assert resp.out.chunks[|old(resp.out.chunks)|..] == written;
      } else {
        assert resp.out.chunks[|old(resp.out.chunks)|..] == [];
      }
    }

    /** doPost: the same as doGet. */
    method DoPost(pathInfo: Option<string>, resp: HttpResponse)
      modifies resp, resp.out
      ensures match Serve(name, getResource, pathInfo)
        case NotFound =>
          && resp.error == Some(SC_NOT_FOUND)
          && resp.characterEncoding == old(resp.characterEncoding)
          && resp.contentType == old(resp.contentType)
          && resp.contentLength == old(resp.contentLength)
          && resp.out.chunks == old(resp.out.chunks)
        case Served(encoding, contentType, contentLength, body) =>
          && resp.error == old(resp.error)
          && resp.characterEncoding == encoding
          && resp.contentType == contentType
          && resp.contentLength == Some(contentLength)
          && |old(resp.out.chunks)| <= |resp.out.chunks| && resp.out.chunks[..|old(resp.out.chunks)|] == old(resp.out.chunks)
          && Flatten(resp.out.chunks[|old(resp.out.chunks)|..]) == body
          && BoundedChunks(resp.out.chunks[|old(resp.out.chunks)|..])
    {
      DoGet(pathInfo, resp);
    }
  }

  /** A single leading slash is dropped and nothing else: "//a" asks for "/a". */
  lemma OnlyOneSlashStripped(rest: string)
    ensures RequestedName(Some("/" + rest)) == rest
  {
  }

  /** The servlet registered for "/files" resolves "/img/a.png" to "/files/img/a.png". */
  lemma ResourcePathExample()
    ensures ResourcePath("/files", Some("/img/a.png")) == "/files/img/a.png"
  {
    assert StartsWith("/img/a.png", "/");
  }
}
