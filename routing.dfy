/** The `/download` request handler: remember a supplied access token, pick
    the output folder from the request category, choose between a single
    job, an expanded collection and nothing at all, and build the reply. */
module Routing {
  import opened Jobs
  import opened Sanitize
  import opened Scheduling
  import opened Resolver
  import opened Expander

  /** The fields of a parsed `/download` body. */
  datatype Request = Request(url: string, kind: string, name: string, accessToken: Option<string>)

  /** What the handler does with a request. */
  datatype Plan =
    | Single(job: Job)                        // one job through the scheduler
    | Expand(job: Job, collection: Collection) // the collection expander
    | NoAction                                 // an unrecognised category

  /** The reply: HTTP status, `success` flag and message or error text. */
  datatype Reply = Reply(status: nat, success: bool, message: string)

  /** A JavaScript-truthy token: present and not the empty string. */
  predicate Truthy(token: Option<string>) {
    token.Some? && token.value != ""
  }

  /** `if (accessToken) spotifyAccessToken = accessToken`. */
  function UpdateToken(stored: Option<string>, offered: Option<string>): (r: Option<string>)
    ensures Truthy(offered) ==> r == offered
    ensures !Truthy(offered) ==> r == stored
    ensures Truthy(r) <==> Truthy(offered) || Truthy(stored)
  {
    if Truthy(offered) then offered else stored
  }

  /** The collection categories the expander understands. */
  function CollectionOf(kind: string): (r: Option<Collection>)
    ensures r == Some(Album) <==> kind == "album"
    ensures r == Some(Playlist) <==> kind == "playlist"
    ensures r == Some(Artist) <==> kind == "artist"
  {
    if kind == "album" then Some(Album)
    else if kind == "playlist" then Some(Playlist)
    else if kind == "artist" then Some(Artist)
    else None
  }

  /** `base` without the one trailing '/' a normalised directory path may
      carry (the root "/" keeps it). */
  function DropTrailingSlash(base: string): (b: string)
    ensures |base| > 1 && base[|base| - 1] == '/' ==> b == base[..|base| - 1]
    ensures !(|base| > 1 && base[|base| - 1] == '/') ==> b == base
  {
    if |base| > 1 && base[|base| - 1] == '/' then base[..|base| - 1] else base
  }

  /** Whether the last segment of `b` is "..", as in the normalised
      relative paths "..", "../.." and so on. */
  predicate EndsInDotDot(b: string) {
    |b| >= 2 && b[|b| - 2..] == ".." && (|b| == 2 || b[|b| - 3] == '/')
  }

  /** `path.join(base, "..")` for a root in normalised form: ignoring one
      trailing '/', the current directory ("" or ".") has the parent "..", a
      path ending in ".." one more "..", and any other path the part before
      its last '/' ("/" when that is the root, "." when there is no '/'). */
  function ParentDir(base: string): (r: string)
    ensures var b := DropTrailingSlash(base);
            b == "" || b == "." ==> r == ".."
    ensures var b := DropTrailingSlash(base);
            b != "" && b != "." && EndsInDotDot(b) ==> r == b + "/.."
    ensures var b := DropTrailingSlash(base);
            b != "" && b != "." && !EndsInDotDot(b) ==>
              || (r == "." && '/' !in b)
              || (r == "/" && b[0] == '/' && '/' !in b[1..])
              || (0 < |r| < |b| && r == b[..|r|] && b[|r|] == '/' && '/' !in b[|r| + 1..])
  {
    var b := DropTrailingSlash(base);
    if b == "" || b == "." then ".."
    else if EndsInDotDot(b) then b + "/.."
    else
      var tail := AfterLastSlash(b);
      if |tail| == |b| then
        assert b == tail;
        "."
      else if |b| - |tail| == 1 then
        assert b[1..] == tail;
        "/"
      else
        var r := b[..|b| - |tail| - 1];
        assert b[|r| + 1..] == tail;
        r
  }

  /** What follows the last '/' of `p + "/" + w` is `w`, when `w` has none. */
  lemma {:induction false} AfterLastSlashOfSplit(p: string, w: string)
    requires '/' !in w
    ensures AfterLastSlash(p + "/" + w) == w
    decreases |w|
  {
    var s := p + "/" + w;
    if w != [] {
      var init := w[..|w| - 1];
      assert s[..|s| - 1] == p + "/" + init;
      AfterLastSlashOfSplit(p, init);
      assert init + [w[|w| - 1]] == w;
    }
  }

  /** The path `p + "/" + w` has no trailing '/' to drop, and is neither
      empty nor ".". */
  lemma SegmentPathKept(p: string, w: string)
    requires w != [] && '/' !in w
    ensures var s := p + "/" + w;
            DropTrailingSlash(s) == s && DropTrailingSlash(s + "/") == s && s != "" && s != "."
  {
    var s := p + "/" + w;
    assert s[|s| - 1] == w[|w| - 1] != '/';
    assert (s + "/")[..|s + "/"| - 1] == s;
  }

  /** The path `p + "/" + w` ends in the segment ".." exactly when `w` is
      "..". */
  lemma SegmentPathDotDot(p: string, w: string)
    requires w != [] && '/' !in w
    ensures EndsInDotDot(p + "/" + w) <==> w == ".."
  {
    var s := p + "/" + w;
    var k := |s| - |w|;
    assert s[k - 1] == '/';
    if |w| == 1 {
      assert s[|s| - 2] == '/';
    } else if |w| == 2 {
      assert s[|s| - 2..] == w;
      assert s[|s| - 3] == '/';
    } else {
      assert s[|s| - 3] == w[|w| - 3];
      assert w[|w| - 3] != '/';
    }
  }

  /** `path.join(p + "/" + w, "..")`, with or without a trailing '/', for a
      last segment `w`: `p` (the root when `p` is empty), or one more ".."
      when `w` is "..". */
  lemma ParentOfSegment(p: string, w: string)
    requires w != [] && '/' !in w
    ensures w != ".." ==> ParentDir(p + "/" + w) == (if p == [] then "/" else p)
    ensures w != ".." ==> ParentDir(p + "/" + w + "/") == (if p == [] then "/" else p)
    ensures w == ".." ==> ParentDir(p + "/" + w) == p + "/../.."
    ensures w == ".." ==> ParentDir(p + "/" + w + "/") == p + "/../.."
  {
    var s := p + "/" + w;
    SegmentPathKept(p, w);
    SegmentPathDotDot(p, w);
    if w == ".." {
      assert s + "/.." == p + "/../..";
    } else {
      AfterLastSlashOfSplit(p, w);
      assert s[..|s| - |w| - 1] == p;
    }
  }

  /** `path.join` on the relative roots "." and "..", and the folder "." on
      a root that ends in '/'. */
  lemma RelativeRootJoins()
    ensures ParentDir(".") == ".." && ParentDir("./") == ".."
    ensures ParentDir("..") == "../.." && ParentDir("../..") == "../../.."
    ensures JoinPath("/music/", ".") == "/music" && JoinPath("/", ".") == "/"
  {
    assert DropTrailingSlash("./") == ".";
    assert EndsInDotDot("..");
    assert EndsInDotDot("../..");
    assert DropTrailingSlash("/music/") == "/music";
  }

  /** What `path.join` puts before an ordinary folder name: nothing for the
      current directory, otherwise the root followed by one '/'. */
  function DirPrefix(base: string): string {
    var b := DropTrailingSlash(base);
    if b == "" || b == "." then ""
    else if base[|base| - 1] == '/' then base
    else base + "/"
  }

  /** `path.join(base, folder)` on a POSIX system, for a root in normalised
      form and a folder name without separators: an empty name names the
      root itself ("." for an empty root), "." the root without a trailing
      '/', ".." its parent, and any other name the entry of that name in the
      root. */
  function JoinPath(base: string, folder: string): (r: string)
    requires '/' !in folder
    ensures folder == "" ==> r == (if base == "" then "." else base)
    ensures folder == "." ==> r == (if base == "" then "." else DropTrailingSlash(base))
    ensures folder == ".." ==> r == ParentDir(base)
    ensures folder != "" && folder != "." && folder != ".." ==>
              && |folder| <= |r|
              && r[|r| - |folder|..] == folder
              && r[..|r| - |folder|] == DirPrefix(base)
  {
    if folder == "" then (if base == "" then "." else base)
    else if folder == "." then (if base == "" then "." else DropTrailingSlash(base))
    else if folder == ".." then ParentDir(base)
    else DirPrefix(base) + folder
  }

  /** The job of a collection request: the collection's locator, category
      and name, written into the root's sub-folder named after the
      sanitised collection name. */
  function CollectionJob(req: Request, base: string): (j: Job)
    ensures j.url == req.url && j.kind == req.kind && j.name == req.name
    ensures j.outputPath == JoinPath(base, SanitizeFilename(req.name))
  {
    Job(req.url, JoinPath(base, SanitizeFilename(req.name)), req.kind, req.name)
  }

  /** The token to keep and what to do, for the request `req` when the
      download root is `base` and the stored token is `stored`. */
  function Route(req: Request, base: string, stored: Option<string>): (r: (Option<string>, Plan))
    ensures r.0 == UpdateToken(stored, req.accessToken)
    ensures req.kind == "track" ==> r.1 == Single(Job(req.url, base, "track", req.name))
    ensures r.1.NoAction? <==> req.kind != "track" && CollectionOf(req.kind).None?
    ensures CollectionOf(req.kind).Some? ==>
              && !r.1.NoAction?
              && r.1.job == CollectionJob(req, base)
              && (r.1.Expand? <==> Truthy(r.0))
              && (r.1.Expand? ==> r.1.collection == CollectionOf(req.kind).value)
  {
    var token := UpdateToken(stored, req.accessToken);
    if req.kind == "track" then (token, Single(Job(req.url, base, "track", req.name)))
    else match CollectionOf(req.kind)
      case Some(c) =>
        var job := CollectionJob(req, base);
        (token, if Truthy(token) then Expand(job, c) else Single(job))
      case None => (token, NoAction)
  }

  /** A collection's folder is the download root itself (for a name that
      sanitises to "" or "."), its parent (for ".."), or the entry of the
      root named by the sanitised collection name, which holds no forbidden
      character. */
  lemma CollectionFolderPlacement(req: Request, base: string, stored: Option<string>)
    requires CollectionOf(req.kind).Some?
    ensures var path := Route(req, base, stored).1.job.outputPath;
            var folder := SanitizeFilename(req.name);
            && (folder == "" ==> path == (if base == "" then "." else base))
            && (folder == "." ==> path == (if base == "" then "." else DropTrailingSlash(base)))
            && (folder == ".." ==> path == ParentDir(base))
            && (folder != "" && folder != "." && folder != ".." ==>
                  && |folder| <= |path|
                  && path[|path| - |folder|..] == folder
                  && path[..|path| - |folder|] == DirPrefix(base)
                  && NoForbidden(path[|path| - |folder|..]))
  {
    var folder := SanitizeFilename(req.name);
    assert Route(req, base, stored).1.job == CollectionJob(req, base);
    var path := JoinPath(base, folder);
    assert folder != "" && folder != "." && folder != ".." ==> path[|path| - |folder|..] == folder;
  }

  /** The reply to a `/download` request of category `kind`: `awaited` is how
      the awaited promise settled, or `None` when nothing was awaited (an
      unrecognised category).  A thrown error, including a body that does
      not parse, gives status 500 with its message. */
  function DownloadReply(kind: string, awaited: Option<Outcome>): (r: Reply)
    ensures r.success <==> r.status == 200
    ensures r.success <==> awaited.None? || awaited.value.Resolved?
    ensures r.success ==> r.message == kind + " download completed"
    ensures !r.success ==> r.status == 500 && r.message == awaited.value.error
  {
    match awaited
    case Some(Rejected(e)) => Reply(500, false, e)
    case _ => Reply(200, true, kind + " download completed")
  }

  /** An unrecognised category falls through both branches and still
      reports success, without submitting anything. */
  lemma UnknownKindSucceeds(req: Request, base: string, stored: Option<string>)
    requires req.kind != "track" && req.kind != "album" && req.kind != "playlist" && req.kind != "artist"
    ensures Route(req, base, stored).1 == NoAction
    ensures DownloadReply(req.kind, None) == Reply(200, true, req.kind + " download completed")
  {
  }

  /** The synchronous part of the `/download` handler: route the request,
      then submit the single job or run the expander; `handles` are the
      promises the handler then awaits. */
  method Download(s: Scheduler, req: Request, base: string, stored: Option<string>, responses: seq<Response>)
    returns (token: Option<string>, plan: Plan, handles: seq<Handle>)
    requires s.Valid()
    modifies s
    ensures s.Valid()
    ensures (token, plan) == Route(req, base, stored)
    ensures plan.Single? ==>
              && handles == [old(s.nextHandle)]
              && s.Snapshot() == AfterSubmits(old(s.Snapshot()), old(s.Capacity()), [plan.job])
    ensures plan.Expand? ==>
              var jobs := Submissions(plan.job, Resolve(plan.collection, responses));
              && |handles| == |jobs|
              && (forall i :: 0 <= i < |handles| ==> handles[i] == old(s.nextHandle) + i)
              && s.Snapshot() == AfterSubmits(old(s.Snapshot()), old(s.Capacity()), jobs)
    ensures plan.NoAction? ==> handles == [] && unchanged(s)
  {
    token, plan := Route(req, base, stored).0, Route(req, base, stored).1;
    match plan
    case Single(job) =>
      ghost var st := s.Snapshot();
      var h := s.Submit(job);
      assert [job][..0] == [];
      handles := [h];
    case Expand(job, c) =>
      var tracks;
      tracks, handles := HandleEnhancedDownload(s, job, c, responses);
    case NoAction =>
      handles := [];
  }
}
