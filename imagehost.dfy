/**
 * The image host: uploads from the bot are hashed chunk by chunk, stored
 * under a content-derived id and answered with links; a sweeper removes
 * old images and animations.
 */
module ImageHost {
  import opened Wrappers
  import opened Lists

  newtype byte = x: int | 0 <= x < 256

  /** Bytes requested per `read` call of the hashing loop. */
  const ChunkSize: nat := 65536
  /** Length of the id: a prefix of the hex digest. */
  const IdLength: nat := 10
  /** Retention, in seconds: two days. */
  const Retention: real := 172800.0

  /** A SHA-256 hex digest (FIPS 180-4): 64 characters. */
  type HexDigest = s: string | |s| == 64 witness seq(64, _ => '0')

  /**
   * The incremental hash object: it has absorbed `fed` so far, and its
   * digest is the hash of everything fed. The hash itself is `sha`,
   * a parameter of the model.
   */
  class Hasher {
    var fed: seq<byte>

    constructor ()
      ensures fed == []
    {
      fed := [];
    }

    /** `hash.update(b)`. */
    method Update(b: seq<byte>)
      modifies this
      ensures fed == old(fed) + b
    {
      fed := fed + b;
    }

    function HexDigest(sha: seq<byte> -> HexDigest): HexDigest
      reads this
    {
      sha(fed)
    }
  }

  /** An uploaded file: its content and a read position. */
  class UploadFile {
    const content: seq<byte>
    var pos: nat

    ghost predicate Valid()
      reads this
    {
      pos <= |content|
    }

    constructor (content: seq<byte>)
      ensures Valid() && this.content == content && pos == 0
    {
      this.content := content;
      pos := 0;
    }

    /** `file.read(n)`: up to `n` bytes from the position, which advances past them. */
    method Read(n: nat) returns (b: seq<byte>)
      requires Valid()
      modifies this
      ensures Valid()
      ensures pos == if old(pos) + n <= |content| then old(pos) + n else |content|
      ensures b == content[old(pos)..pos]
    {
      var end := if pos + n <= |content| then pos + n else |content|;
      b := content[pos..end];
      pos := end;
    }
  }

  /**
   * Chunks as the hashing loop reads them: none empty, none longer than
   * `ChunkSize`, all but the last full, and the last full too when
   * `lastFull` says so.
   */
  ghost predicate Chunked(chunks: seq<seq<byte>>, lastFull: bool)
  {
    && (forall k :: 0 <= k < |chunks| ==> 0 < |chunks[k]| <= ChunkSize)
    && (forall k :: 0 <= k < |chunks| - 1 ==> |chunks[k]| == ChunkSize)
    && (lastFull && |chunks| > 0 ==> |chunks[|chunks| - 1]| == ChunkSize)
  }

  /** Appending a read after full chunks keeps the shape, and adds the read to the concatenation. */
  lemma ChunkedAppend(chunks: seq<seq<byte>>, fb: seq<byte>)
    requires Chunked(chunks, true) && 0 < |fb| <= ChunkSize
    ensures Chunked(chunks + [fb], |fb| == ChunkSize)
    ensures Flatten(chunks + [fb]) == Flatten(chunks) + fb
  {
    assert (chunks + [fb])[..|chunks|] == chunks;
  }

  /** The prefix up to `pos` is the prefix up to `start` followed by the bytes between. */
  lemma PrefixExtend(content: seq<byte>, start: nat, pos: nat)
    requires start <= pos <= |content|
    ensures content[..pos] == content[..start] + content[start..pos]
  {
  }

  /**
   * The hashing loop of both upload handlers: read 64 KiB chunks until an
   * empty read and feed each to the hash. The chunks are returned to state
   * what was fed: they concatenate to the whole content, every one is
   * non-empty and all but the last are full.
   */
  method HashChunks(content: seq<byte>) returns (fed: seq<byte>, chunks: seq<seq<byte>>)
    ensures fed == content
    ensures Flatten(chunks) == content
    ensures forall k :: 0 <= k < |chunks| ==> 0 < |chunks[k]| <= ChunkSize
    ensures forall k :: 0 <= k < |chunks| - 1 ==> |chunks[k]| == ChunkSize
  {
    var file := new UploadFile(content);
    var hash := new Hasher();
    chunks := [];
    var fb := file.Read(ChunkSize);
    ghost var start: nat := 0;
    while |fb| > 0
      invariant file.Valid() && file.content == content
      invariant start + |fb| == file.pos && fb == content[start..file.pos]
      invariant |fb| <= ChunkSize && (file.pos < |content| ==> |fb| == ChunkSize)
      invariant hash.fed == content[..start] && Flatten(chunks) == content[..start]
      invariant Chunked(chunks, |fb| > 0)
      invariant fresh(hash) && fresh(file)
      decreases |content| - file.pos, |fb|
    {
      PrefixExtend(content, start, file.pos);
      hash.Update(fb);
      ChunkedAppend(chunks, fb);
      chunks := chunks + [fb];
      start := file.pos;
      fb := file.Read(ChunkSize);
    }
    assert content[..file.pos] == content;
    fed := hash.fed;
  }

  /** The id of stored content: the first ten characters of its hex digest. */
  function ContentId(content: seq<byte>, sha: seq<byte> -> HexDigest): (id: string)
    ensures |id| == IdLength && id <= sha(content)
  {
    sha(content)[..IdLength]
  }

  function ImageName(id: string): string
  {
    id + ".jpg"
  }

  function ThumbName(id: string): string
  {
    id + "_t.jpg"
  }

  function AnimationName(id: string): string
  {
    id + ".mp4"
  }

  /**
   * For ids of the fixed length, an image's name is never a thumbnail's
   * name, and each kind of name determines its id.
   */
  lemma NamesDistinct(a: string, b: string)
    requires |a| == IdLength && |b| == IdLength
    ensures ImageName(a) != ThumbName(b)
    ensures ImageName(a) != AnimationName(b)
    ensures ImageName(a) == ImageName(b) ==> a == b
    ensures ThumbName(a) == ThumbName(b) ==> a == b
    ensures AnimationName(a) == AnimationName(b) ==> a == b
  {
    assert ImageName(a)[IdLength + 1] == 'j';
    assert AnimationName(b)[IdLength + 1] == 'm';
    if ImageName(a) == ImageName(b) {
      assert a == ImageName(a)[..IdLength];
      assert b == ImageName(b)[..IdLength];
    }
    if ThumbName(a) == ThumbName(b) {
      assert a == ThumbName(a)[..IdLength];
      assert b == ThumbName(b)[..IdLength];
    }
    if AnimationName(a) == AnimationName(b) {
      assert a == AnimationName(a)[..IdLength];
      assert b == AnimationName(b)[..IdLength];
    }
  }

  /** `os.environ.get('BASE_URL')` as an f-string prints it: an unset variable reads "None". */
  function BaseText(baseUrl: Option<string>): string
  {
    match baseUrl
    case None => "None"
    case Some(u) => u
  }

  /** A link to a stored file: base URL, the route, then the file name. */
  function Link(baseUrl: Option<string>, route: string, name: string): string
  {
    BaseText(baseUrl) + "/" + route + "/" + name
  }

  /** Under one base URL and route, a link determines the file name it points to. */
  lemma LinkInjective(baseUrl: Option<string>, route: string, n1: string, n2: string)
    requires Link(baseUrl, route, n1) == Link(baseUrl, route, n2)
    ensures n1 == n2
  {
    var prefix := BaseText(baseUrl) + "/" + route + "/";
    assert n1 == Link(baseUrl, route, n1)[|prefix|..];
    assert n2 == Link(baseUrl, route, n2)[|prefix|..];
  }

  /** The two links an image upload answers with never coincide. */
  lemma ImageLinksDistinct(baseUrl: Option<string>, id: string)
    requires |id| == IdLength
    ensures Link(baseUrl, "image", ImageName(id)) != Link(baseUrl, "image", ThumbName(id))
  {
    NamesDistinct(id, id);
    if Link(baseUrl, "image", ImageName(id)) == Link(baseUrl, "image", ThumbName(id)) {
      LinkInjective(baseUrl, "image", ImageName(id), ThumbName(id));
    }
  }

  /** One form field of a multipart upload: the client's file name and the bytes. */
  datatype Upload = Upload(filename: string, content: seq<byte>)

  /** An upload request: the caller's address and the uploaded form fields. */
  datatype Request = Request(remoteAddr: string, files: map<string, Upload>)

  /**
   * The JSON answer of an upload route. A 405 answer carries only its
   * status, the 400 answers an error message.
   */
  datatype Reply =
    | ImageCreated(id: string, link: string, thumb: string, width: nat, height: nat)
    | AnimationCreated(id: string, link: string)
    | Failure(status: nat, error: Option<string>)

  function Status(r: Reply): nat
  {
    if r.Failure? then r.status else 201
  }

  /**
   * `POST /image`. Callers other than the `bot` host get 405, before the
   * body is looked at; a missing `image` field or an empty file name gets
   * 400; content the image decoder rejects gets 400; otherwise the image and
   * its thumbnail are saved and 201 reports the id, both links and the
   * original's dimensions. `decode` is the image decoder (width, height),
   * `botAddr` what the `bot` host name resolves to.
   */
  method PostImage(req: Request, botAddr: string, baseUrl: Option<string>,
                   sha: seq<byte> -> HexDigest, decode: seq<byte> -> Option<(nat, nat)>)
    returns (reply: Reply, saved: seq<string>)
    ensures req.remoteAddr != botAddr ==> reply == Failure(405, None) && saved == []
    ensures req.remoteAddr == botAddr && "image" !in req.files ==> reply == Failure(400, Some("No image")) && saved == []
    ensures req.remoteAddr == botAddr && "image" in req.files && req.files["image"].filename == "" ==>
              reply == Failure(400, Some("No image found")) && saved == []
    ensures req.remoteAddr == botAddr && "image" in req.files && req.files["image"].filename != "" ==>
              var up := req.files["image"];
              var id := ContentId(up.content, sha);
              match decode(up.content)
              case None => reply == Failure(400, Some("Cannot parse as image")) && saved == []
              case Some(dims) =>
                && reply == ImageCreated(id, Link(baseUrl, "image", ImageName(id)), Link(baseUrl, "image", ThumbName(id)), dims.0, dims.1)
                && saved == [ImageName(id), ThumbName(id)]
    ensures Status(reply) == 201 <==> reply.ImageCreated?
  {
    saved := [];
    if req.remoteAddr != botAddr {
      return Failure(405, None), saved;
    }
    if "image" !in req.files {
      return Failure(400, Some("No image")), saved;
    }
    var file := req.files["image"];
    if file.filename == "" {
      return Failure(400, Some("No image found")), saved;
    }
    var fed, _ := HashChunks(file.content);
    var id := sha(fed)[..IdLength];
    var imageName := ImageName(id);
    var thumbName := ThumbName(id);
    var jpg := decode(file.content);
    if jpg.None? {
      return Failure(400, Some("Cannot parse as image")), saved;
    }
    saved := [imageName, thumbName];
    reply := ImageCreated(id, Link(baseUrl, "image", imageName), Link(baseUrl, "image", thumbName), jpg.value.0, jpg.value.1);
  }

  /**
   * `POST /animation`: the same guards as for images, without decoding;
   * the animation is stored as `<id>.mp4` and linked under `/animation/`.
   */
  method PostAnimation(req: Request, botAddr: string, baseUrl: Option<string>, sha: seq<byte> -> HexDigest)
    returns (reply: Reply, saved: seq<string>)
    ensures req.remoteAddr != botAddr ==> reply == Failure(405, None) && saved == []
    ensures req.remoteAddr == botAddr && "animation" !in req.files ==> reply == Failure(400, Some("No animation")) && saved == []
    ensures req.remoteAddr == botAddr && "animation" in req.files && req.files["animation"].filename == "" ==>
              reply == Failure(400, Some("No valid mp4 animation")) && saved == []
    ensures req.remoteAddr == botAddr && "animation" in req.files && req.files["animation"].filename != "" ==>
              var id := ContentId(req.files["animation"].content, sha);
              && reply == AnimationCreated(id, Link(baseUrl, "animation", AnimationName(id)))
              && saved == [AnimationName(id)]
    ensures Status(reply) == 201 <==> reply.AnimationCreated?
  {
    saved := [];
    if req.remoteAddr != botAddr {
      return Failure(405, None), saved;
    }
    if "animation" !in req.files {
      return Failure(400, Some("No animation")), saved;
    }
    var file := req.files["animation"];
    if file.filename == "" {
      return Failure(400, Some("No valid mp4 animation")), saved;
    }
    var fed, _ := HashChunks(file.content);
    var id := sha(fed)[..IdLength];
    var name := AnimationName(id);
    saved := [name];
    reply := AnimationCreated(id, Link(baseUrl, "animation", name));
  }

  /** A directory entry the sweeper looks at. */
  datatype Entry = Entry(name: string, isFile: bool, mtime: real)

  /** The last index of `c` in `s`, or -1 (Python's `rfind`). */
  function RFind(s: string, c: char): (i: int)
    ensures -1 <= i < |s|
    ensures i >= 0 ==> s[i] == c
    ensures forall k :: i < k < |s| ==> s[k] != c
  {
    if s == [] then -1
    else if s[|s| - 1] == c then |s| - 1
    else RFind(s[..|s| - 1], c)
  }

  /** `PurePath.suffix`: from the last dot on, unless that dot leads or ends the name. */
  function Suffix(name: string): string
  {
    var i := RFind(name, '.');
    if 0 < i < |name| - 1 then name[i..] else ""
  }

  /** A name has suffix `ext` (a dot and three letters) exactly when it ends with `ext` after a non-empty stem. */
  lemma SuffixIsEnding(name: string, ext: string)
    requires |ext| == 4 && ext[0] == '.' && '.' !in ext[1..]
    ensures Suffix(name) == ext <==> |name| > 4 && name[|name| - 4..] == ext
  {
    var i := RFind(name, '.');
    if |name| > 4 && name[|name| - 4..] == ext {
      assert name[|name| - 4] == '.';
      assert forall k :: |name| - 4 < k < |name| ==> name[k] == ext[k - (|name| - 4)];
      assert i == |name| - 4;
    }
    if Suffix(name) == ext {
      assert |name[i..]| == 4;
    }
  }

  /** `deleteOldImages` removes a path when it is a .jpg or .mp4 file last modified over two days ago. */
  predicate Expired(e: Entry, now: real)
  {
    && (Suffix(e.name) == ".jpg" || Suffix(e.name) == ".mp4")
    && e.isFile
    && e.mtime < now - Retention
  }

  /** The names of the expired entries, in listing order. */
  function ExpiredNames(entries: seq<Entry>, now: real): seq<string>
  {
    if entries == [] then []
    else ExpiredNames(entries[..|entries| - 1], now)
         + (if Expired(entries[|entries| - 1], now) then [entries[|entries| - 1].name] else [])
  }

  /** A name is removed exactly when some expired entry carries it. */
  lemma {:induction false} ExpiredNamesExact(entries: seq<Entry>, now: real, name: string)
    ensures name in ExpiredNames(entries, now) <==> exists e :: e in entries && e.name == name && Expired(e, now)
  {
    if entries != [] {
      var init := entries[..|entries| - 1];
      var last := entries[|entries| - 1];
      ExpiredNamesExact(init, now, name);
      assert entries == init + [last];
      if exists e :: e in entries && e.name == name && Expired(e, now) {
        var e :| e in entries && e.name == name && Expired(e, now);
        if e != last {
          assert e in init;
        }
      }
    }
  }

  /**
   * One sweep of `deleteOldImages` over a directory listing: each expired
   * entry is removed, the others are left. A failing stat or removal is
   * swallowed by the source and not modelled.
   */
  method DeleteOldImages(entries: seq<Entry>, now: real) returns (removed: seq<string>)
    ensures removed == ExpiredNames(entries, now)
  {
    removed := [];
    for j := 0 to |entries|
      invariant removed == ExpiredNames(entries[..j], now)
    {
      assert entries[..j + 1][..j] == entries[..j];
      var item := entries[j];
      if (Suffix(item.name) == ".jpg" || Suffix(item.name) == ".mp4") && item.isFile {
        if item.mtime < now - Retention {
          removed := removed + [item.name];
        }
      }
    }
    assert entries[..|entries|] == entries;
  }
}
