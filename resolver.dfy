/** The collection track resolver (`fetchTracks`): turns an album, playlist
    or artist link into an ordered list of track descriptors by reading the
    catalogue's listing pages.  The catalogue's answers are an input: the
    first element of `responses` answers the first request and each further
    element answers the request for the previous page's `next` link. */
module Resolver {
  import opened Jobs

  datatype Collection = Album | Playlist | Artist

  /** An element of a track object's `artists` array. */
  datatype ArtistObject = ArtistObject(name: Option<string>)

  /** A catalogue track object, reduced to the fields the resolver reads.
      `spotifyUrl` is `external_urls.spotify`; `None` means the object has no
      `external_urls`, so reading the link throws. */
  datatype TrackObject = TrackObject(
    kind: string, name: string, artists: Option<seq<ArtistObject>>, spotifyUrl: Option<string>)

  /** An element of a listing's `items` or `tracks` array.  Album and artist
      listings hold track objects; playlist listings hold wrappers whose
      `track` field may be missing (null) or hold a non-track such as an
      episode.  Reading a wrapper as a track throws (it has no
      `external_urls`); reading a bare track object as a wrapper finds no
      `track` field. */
  datatype Item = TrackItem(track: TrackObject) | Wrapper(inner: Option<TrackObject>)

  /** A parsed listing body: its `items`, its `tracks` and whether `next`
      is set. */
  datatype Data = Data(items: Option<seq<Item>>, tracks: Option<seq<Item>>, hasNext: bool)

  /** One answer of the catalogue: either the request itself failed, or an
      HTTP response with its `ok` flag and its body (`None` when the body is
      not a JSON object, so that `response.json()` throws). */
  datatype Response = Unreachable | Http(ok: bool, data: Option<Data>)

  /** The resolver's output record `{name, artist, url}`. */
  datatype Descriptor = Descriptor(name: string, artist: string, url: string)

  function Prefix(kind: Collection): string {
    match kind
    case Album => "https://api.spotify.com/v1/albums/"
    case Playlist => "https://api.spotify.com/v1/playlists/"
    case Artist => "https://api.spotify.com/v1/artists/"
  }

  function Suffix(kind: Collection): string {
    match kind
    case Album => "/tracks?limit=300"
    case Playlist => "/tracks?limit=300"
    case Artist => "/top-tracks?market=US"
  }

  /** The listing endpoint the first request goes to. */
  function Endpoint(kind: Collection, id: string): (r: string)
    ensures |r| == |Prefix(kind)| + |id| + |Suffix(kind)|
    ensures r[|Prefix(kind)|..|r| - |Suffix(kind)|] == id
  {
    Prefix(kind) + id + Suffix(kind)
  }

  /** `s.split('/')` followed by taking the last piece: everything after the
      last '/'. */
  function AfterLastSlash(s: string): (r: string)
    ensures |r| <= |s| && r == s[|s| - |r|..]
    ensures '/' !in r
    ensures |r| < |s| ==> s[|s| - |r| - 1] == '/'
    decreases |s|
  {
    if s == [] then []
    else if s[|s| - 1] == '/' then []
    else
      var init := s[..|s| - 1];
      var rest := AfterLastSlash(init);
      assert init[|init| - |rest|..] + [s[|s| - 1]] == s[|s| - |rest| - 1..];
      assert |rest| < |init| ==> init[|init| - |rest| - 1] == s[|s| - |rest| - 2];
      rest + [s[|s| - 1]]
  }

  /** `s.split('?')[0]`: everything before the first '?'. */
  function BeforeQuery(s: string): (r: string)
    ensures |r| <= |s| && r == s[..|r|]
    ensures '?' !in r
    ensures |r| < |s| ==> s[|r|] == '?'
  {
    if s == [] || s[0] == '?' then [] else [s[0]] + BeforeQuery(s[1..])
  }

  /** The collection id of a catalogue link: its last '/'-separated segment,
      cut at the first '?'. */
  function CollectionId(url: string): (id: string)
    ensures '/' !in id && '?' !in id
    ensures exists i ::
              && 0 <= i <= |url| - |id| && url[i..i + |id|] == id
              && (i == 0 || url[i - 1] == '/')
              && (i + |id| == |url| || url[i + |id|] == '?')
              && '/' !in url[i..]
  {
    var last := AfterLastSlash(url);
    var id := BeforeQuery(last);
    var i := |url| - |last|;
    assert url[i..i + |id|] == id;
    assert url[i..] == last;
    id
  }

  /** `track.artists?.[0]?.name || 'Unknown'`. */
  function ArtistName(t: TrackObject): (r: string)
    ensures r != ""
    ensures r == "Unknown" || (t.artists.Some? && |t.artists.value| > 0 && t.artists.value[0].name == Some(r))
    ensures (t.artists.Some? && |t.artists.value| > 0 && t.artists.value[0].name.Some?
             && t.artists.value[0].name.value != "") ==> r == t.artists.value[0].name.value
  {
    match t.artists
    case Some(list) =>
      if |list| > 0 && list[0].name.Some? && list[0].name.value != "" then list[0].name.value else "Unknown"
    case None => "Unknown"
  }

  /** The descriptor of one track object; `None` when reading its link
      throws. */
  function Describe(t: TrackObject): (r: Option<Descriptor>)
    ensures r.Some? <==> t.spotifyUrl.Some?
    ensures r.Some? ==> r.value == Descriptor(t.name, ArtistName(t), t.spotifyUrl.value)
  {
    match t.spotifyUrl
    case Some(u) => Some(Descriptor(t.name, ArtistName(t), u))
    case None => None
  }

  /** `tracks.map(describe)`: every track described, in order, or `None`
      when one of them throws. */
  function DescribeAll(ts: seq<TrackObject>): (r: Option<seq<Descriptor>>)
    ensures r.Some? <==> forall i :: 0 <= i < |ts| ==> ts[i].spotifyUrl.Some?
    ensures r.Some? ==> |r.value| == |ts| && forall i :: 0 <= i < |ts| ==> Some(r.value[i]) == Describe(ts[i])
  {
    if ts == [] then Some([])
    else match (Describe(ts[0]), DescribeAll(ts[1..]))
      case (Some(d), Some(ds)) => Some([d] + ds)
      case _ => None
  }

  /** The elements of an album or artist listing read as track objects;
      `None` when one of them is a wrapper, on which reading the link
      throws. */
  function AsTracks(items: seq<Item>): (r: Option<seq<TrackObject>>)
    ensures r.Some? <==> forall i :: 0 <= i < |items| ==> items[i].TrackItem?
    ensures r.Some? ==> |r.value| == |items| && forall i :: 0 <= i < |items| ==> r.value[i] == items[i].track
  {
    if items == [] then Some([])
    else match (items[0], AsTracks(items[1..]))
      case (TrackItem(t), Some(ts)) => Some([t] + ts)
      case _ => None
  }

  /** Whether a playlist element passes
      `item.track && item.track.type === 'track'`. */
  predicate IsRealTrack(item: Item) {
    item.Wrapper? && item.inner.Some? && item.inner.value.kind == "track"
  }

  /** The playlist filter: the track objects of the elements that are real
      tracks, in order. */
  function RealTracks(items: seq<Item>): (r: seq<TrackObject>)
    ensures |r| <= |items|
    ensures forall t :: t in r ==> t.kind == "track" && Wrapper(Some(t)) in items
    ensures forall i :: 0 <= i < |items| && IsRealTrack(items[i]) ==> items[i].inner.value in r
  {
    if items == [] then []
    else if IsRealTrack(items[0]) then [items[0].inner.value] + RealTracks(items[1..])
    else RealTracks(items[1..])
  }

  /** The filter keeps order: it maps concatenation to concatenation. */
  lemma {:induction false} RealTracksAppend(a: seq<Item>, b: seq<Item>)
    ensures RealTracks(a + b) == RealTracks(a) + RealTracks(b)
    decreases |a|
  {
    if a != [] {
      var ab := a + b;
      assert ab != [] && ab[0] == a[0] && ab[1..] == a[1..] + b;
      RealTracksAppend(a[1..], b);
      if IsRealTrack(a[0]) {
        var t := [a[0].inner.value];
        assert RealTracks(a) == t + RealTracks(a[1..]);
        assert RealTracks(ab) == t + RealTracks(a[1..] + b);
        assert t + (RealTracks(a[1..]) + RealTracks(b)) == (t + RealTracks(a[1..])) + RealTracks(b);
      } else {
        assert RealTracks(a) == RealTracks(a[1..]);
        assert RealTracks(ab) == RealTracks(a[1..] + b);
      }
    } else {
      assert a + b == b;
    }
  }

  /** On one element the filter keeps the track object of a real track
      and drops anything else, so with `RealTracksAppend` it is determined
      element by element. */
  lemma RealTracksSingle(item: Item)
    ensures IsRealTrack(item) ==> RealTracks([item]) == [item.inner.value]
    ensures !IsRealTrack(item) ==> RealTracks([item]) == []
  {
    assert [item][1..] == [];
  }

  /** The descriptors one listing page contributes, or `None` when reading
      it throws.  Album and playlist pages are read from `items`; an artist
      listing is read from `tracks` on the first page only. */
  function PageTracks(kind: Collection, data: Data, first: bool): (r: Option<seq<Descriptor>>)
    ensures kind == Artist && !first ==> r == Some([])
  {
    match kind
    case Album =>
      if data.items.None? then None
      else (match AsTracks(data.items.value)
        case Some(ts) => DescribeAll(ts)
        case None => None)
    case Playlist =>
      if data.items.None? then None else DescribeAll(RealTracks(data.items.value))
    case Artist =>
      if !first then Some([])
      else if data.tracks.None? then None
      else match AsTracks(data.tracks.value)
        case Some(ts) => DescribeAll(ts)
        case None => None
  }

  /** Concatenation of two partial results: `None` (a throw) wins. */
  function Join(a: Option<seq<Descriptor>>, b: Option<seq<Descriptor>>): (r: Option<seq<Descriptor>>)
    ensures r.Some? <==> a.Some? && b.Some?
    ensures r.Some? ==> r.value == a.value + b.value
  {
    if a.Some? && b.Some? then Some(a.value + b.value) else None
  }

  /** The `catch` of `fetchTracks`: a throw becomes the empty list. */
  function OrEmpty(r: Option<seq<Descriptor>>): (result: seq<Descriptor>)
    ensures r.Some? ==> result == r.value
    ensures r.None? ==> result == []
  {
    if r.Some? then r.value else []
  }

  /** Whether an answer is an ok response with a readable body. */
  predicate IsOkPage(r: Response) {
    r.Http? && r.ok && r.data.Some?
  }

  /** The `while (data.next)` loop over the answers `rest`: `Some` of the
      descriptors it appends, or `None` when it throws.  A non-ok page ends
      the loop keeping what was fetched; running out of answers while a
      `next` link is pending counts as a failed request. */
  function Follow(kind: Collection, more: bool, rest: seq<Response>): (r: Option<seq<Descriptor>>)
    ensures !more ==> r == Some([])
    ensures more && (rest == [] || rest[0].Unreachable?) ==> r == None
    ensures more && rest != [] && rest[0].Http? && !rest[0].ok ==> r == Some([])
    decreases |rest|
  {
    if !more then Some([])
    else if rest == [] || rest[0].Unreachable? then None
    else if !rest[0].ok then Some([])
    else if rest[0].data.None? then None
    else Join(PageTracks(kind, rest[0].data.value, false), Follow(kind, rest[0].data.value.hasNext, rest[1..]))
  }

  /** The run of `fetchTracks` up to its `catch`: `Some` of the first page's
      descriptors followed by those of the pages the loop follows, or `None`
      when the first answer is not an ok page or anything throws. */
  function Fetch(kind: Collection, responses: seq<Response>): (r: Option<seq<Descriptor>>)
    ensures responses == [] || !IsOkPage(responses[0]) ==> r == None
    ensures r.Some? ==>
              && PageTracks(kind, responses[0].data.value, true).Some?
              && PageTracks(kind, responses[0].data.value, true).value <= r.value
  {
    if responses == [] || !IsOkPage(responses[0]) then None
    else
      var data := responses[0].data.value;
      Join(PageTracks(kind, data, true), Follow(kind, data.hasNext, responses[1..]))
  }

  /** What `fetchTracks` returns for the answers `responses`. */
  function Resolve(kind: Collection, responses: seq<Response>): (r: seq<Descriptor>)
    ensures responses == [] || !IsOkPage(responses[0]) ==> r == []
    ensures r == [] || (&& IsOkPage(responses[0])
                        && PageTracks(kind, responses[0].data.value, true).Some?
                        && PageTracks(kind, responses[0].data.value, true).value <= r)
  {
    OrEmpty(Fetch(kind, responses))
  }

  /** `fetchTracks(url, type, accessToken)`, Extensions/download-server.js:110-200.
      Returns the endpoint of the first request and the descriptors, both
      as the specification functions give them. */
  method FetchTracks(url: string, kind: Collection, responses: seq<Response>)
    returns (request: string, tracks: seq<Descriptor>)
    ensures request == Endpoint(kind, CollectionId(url))
    ensures tracks == Resolve(kind, responses)
  {
    request := Endpoint(kind, CollectionId(url));
    if responses == [] || !IsOkPage(responses[0]) {
      return request, [];
    }
    var data := responses[0].data.value;
    var first := PageTracks(kind, data, true);
    if first.None? {
      return request, [];
    }
    tracks := FollowPages(kind, responses, data, first.value);
    JoinAssociates([], first.value, Follow(kind, data.hasNext, responses[1..]));
  }

  lemma JoinAssociates(a: seq<Descriptor>, b: seq<Descriptor>, c: Option<seq<Descriptor>>)
    ensures Join(Some(a), Join(Some(b), c)) == Join(Some(a + b), c)
  {
    if c.Some? {
      assert a + (b + c.value) == (a + b) + c.value;
    }
  }

  /** An ok page in the loop: its descriptors, then those of the pages
      after it. */
  lemma FollowOkPage(kind: Collection, more: bool, rest: seq<Response>)
    requires more && rest != [] && IsOkPage(rest[0])
    ensures Follow(kind, more, rest)
         == Join(PageTracks(kind, rest[0].data.value, false), Follow(kind, rest[0].data.value.hasNext, rest[1..]))
  {
  }

  /** The pagination loop of `fetchTracks`: starting from the first page
      `data` and its descriptors `tracks`, follow `next` links through
      `responses[1..]`, appending each page's descriptors. */
  method FollowPages(kind: Collection, responses: seq<Response>, data: Data, tracks: seq<Descriptor>)
    returns (result: seq<Descriptor>)
    requires |responses| >= 1
    ensures result == OrEmpty(Join(Some(tracks), Follow(kind, data.hasNext, responses[1..])))
  {
    ghost var goal := Join(Some(tracks), Follow(kind, data.hasNext, responses[1..]));
    result := tracks;
    var current := data;
    var i := 1;
    while current.hasNext
      invariant 1 <= i <= |responses|
      invariant goal == Join(Some(result), Follow(kind, current.hasNext, responses[i..]))
      decreases |responses| - i
    {
      ghost var rest := responses[i..];
      assert rest != [] ==> rest[0] == responses[i] && rest[1..] == responses[i + 1..];
      if i == |responses| || responses[i].Unreachable? || (responses[i].ok && responses[i].data.None?) {
        assert Follow(kind, current.hasNext, rest) == None;
        assert goal == None;
        return [];
      }
      if !responses[i].ok {
        assert result + [] == result;
        assert goal == Some(result);
        break;
      }
      var page := responses[i].data.value;
      var more := PageTracks(kind, page, false);
      ghost var tail := Follow(kind, page.hasNext, responses[i + 1..]);
      FollowOkPage(kind, current.hasNext, rest);
      if more.None? {
        assert goal == None;
        return [];
      }
      JoinAssociates(result, more.value, tail);
      assert goal == Join(Some(result + more.value), tail);
      result := result + more.value;
      current := page;
      i := i + 1;
    }
    assert result + [] == result;
    assert goal == Some(result);
  }

  // Properties of the resolver.

  /** The resolver sends its request number `k` (counting from 0) when it
      reads the answers `responses`. */
  ghost predicate Requests(kind: Collection, responses: seq<Response>, k: nat) {
    || k == 0
    || (&& responses != [] && IsOkPage(responses[0])
        && PageTracks(kind, responses[0].data.value, true).Some?
        && FollowRequests(kind, responses[0].data.value.hasNext, responses[1..], k - 1))
  }

  /** The loop sends its request number `j` (counting from 0) over `rest`. */
  ghost predicate FollowRequests(kind: Collection, more: bool, rest: seq<Response>, j: nat)
    decreases j
  {
    && more
    && (|| j == 0
        || (&& rest != [] && IsOkPage(rest[0])
            && PageTracks(kind, rest[0].data.value, false).Some?
            && FollowRequests(kind, rest[0].data.value.hasNext, rest[1..], j - 1)))
  }

  /** Reading the answer `r` throws: the request failed, the body is not
      readable, reading a track throws, or (on the first page only) the
      response is not ok. */
  predicate Throws(kind: Collection, r: Response, first: bool) {
    || r.Unreachable?
    || (first && !r.ok)
    || (r.ok && (r.data.None? || PageTracks(kind, r.data.value, first).None?))
  }

  lemma {:induction false} FollowThrows(kind: Collection, more: bool, rest: seq<Response>, j: nat)
    requires FollowRequests(kind, more, rest, j)
    requires j == |rest| || (j < |rest| && Throws(kind, rest[j], false))
    ensures Follow(kind, more, rest) == None
    decreases j
  {
    if j > 0 {
      FollowThrows(kind, rest[0].data.value.hasNext, rest[1..], j - 1);
    }
  }

  /** Error policy, thrown errors: once the resolver sends a request whose
      answer throws (or that gets no answer at all), it returns `[]`, whatever
      it had already fetched. */
  lemma ThrowDiscardsEverything(kind: Collection, responses: seq<Response>, k: nat)
    requires Requests(kind, responses, k)
    requires k == |responses| || (k < |responses| && Throws(kind, responses[k], k == 0))
    ensures Fetch(kind, responses) == None && Resolve(kind, responses) == []
  {
    if k > 0 {
      FollowThrows(kind, responses[0].data.value.hasNext, responses[1..], k - 1);
    }
  }

  lemma {:induction false} FollowStopPrefix(kind: Collection, more: bool, rest: seq<Response>, k: nat, bad: Response)
    requires k <= |rest| && bad.Http? && !bad.ok
    ensures Follow(kind, more, rest).Some? ==>
              && Follow(kind, more, rest[..k] + [bad]).Some?
              && Follow(kind, more, rest[..k] + [bad]).value <= Follow(kind, more, rest).value
    decreases k
  {
    var cut := rest[..k] + [bad];
    if more && k > 0 && Follow(kind, more, rest).Some? {
      assert cut[0] == rest[0];
      if rest[0].ok {
        assert cut[1..] == rest[1..][..k - 1] + [bad];
        FollowStopPrefix(kind, rest[0].data.value.hasNext, rest[1..], k - 1, bad);
      }
    }
  }

  /** Error policy, a failed later page: answering request `k` (k >= 1) with
      a non-ok response stops the resolver with the descriptors fetched so
      far, which form a prefix of what the run would return had that page
      succeeded and nothing thrown after it. */
  lemma LaterFailureKeepsPrefix(kind: Collection, responses: seq<Response>, k: nat, bad: Response)
    requires 1 <= k <= |responses| && bad.Http? && !bad.ok
    ensures Fetch(kind, responses).Some? ==>
              && Fetch(kind, responses[..k] + [bad]).Some?
              && Resolve(kind, responses[..k] + [bad]) <= Resolve(kind, responses)
  {
    var cut := responses[..k] + [bad];
    assert cut[0] == responses[0];
    assert cut[1..] == responses[1..][..k - 1] + [bad];
    if IsOkPage(responses[0]) {
      FollowStopPrefix(kind, responses[0].data.value.hasNext, responses[1..], k - 1, bad);
    }
  }

  /** The descriptors of the pages the loop has read before it sends its
      request number `j` over `rest`: `None` when one of them throws. */
  function FollowAccumulated(kind: Collection, more: bool, rest: seq<Response>, j: nat): (r: Option<seq<Descriptor>>)
    ensures kind == Artist && r.Some? ==> r.value == []
    decreases j
  {
    if j == 0 then Some([])
    else if !more || rest == [] || !IsOkPage(rest[0]) then None
    else Join(PageTracks(kind, rest[0].data.value, false), FollowAccumulated(kind, rest[0].data.value.hasNext, rest[1..], j - 1))
  }

  /** The descriptors the resolver holds when it sends its request number
      `k` (k >= 1): those of the first page, then those of the pages the
      loop has read. */
  function Accumulated(kind: Collection, responses: seq<Response>, k: nat): (r: Option<seq<Descriptor>>)
    requires k >= 1
    ensures r.Some? ==> responses != [] && IsOkPage(responses[0])
  {
    if responses == [] || !IsOkPage(responses[0]) then None
    else
      var data := responses[0].data.value;
      Join(PageTracks(kind, data, true), FollowAccumulated(kind, data.hasNext, responses[1..], k - 1))
  }

  lemma {:induction false} FollowStopKeepsAccumulated(kind: Collection, more: bool, rest: seq<Response>, j: nat)
    requires FollowRequests(kind, more, rest, j)
    requires j < |rest| && rest[j].Http? && !rest[j].ok
    ensures FollowAccumulated(kind, more, rest, j).Some?
    ensures Follow(kind, more, rest) == FollowAccumulated(kind, more, rest, j)
    decreases j
  {
    if j > 0 {
      FollowStopKeepsAccumulated(kind, rest[0].data.value.hasNext, rest[1..], j - 1);
      FollowOkPage(kind, more, rest);
    }
  }

  /** Error policy, a failed later page, exactly: when the resolver's
      request `k` (k >= 1) gets a non-ok response, it returns precisely the
      descriptors of the pages it read before that request. */
  lemma LaterFailureKeepsAccumulated(kind: Collection, responses: seq<Response>, k: nat)
    requires Requests(kind, responses, k) && 1 <= k < |responses|
    requires responses[k].Http? && !responses[k].ok
    ensures Accumulated(kind, responses, k).Some?
    ensures Fetch(kind, responses) == Accumulated(kind, responses, k)
    ensures Resolve(kind, responses) == Accumulated(kind, responses, k).value
  {
    FollowStopKeepsAccumulated(kind, responses[0].data.value.hasNext, responses[1..], k - 1);
  }

  /** What is accumulated before request `k` depends only on the answers
      to the requests before it. */
  lemma {:induction false} FollowAccumulatedReadsPrefix(kind: Collection, more: bool, rest: seq<Response>, j: nat)
    requires j <= |rest|
    ensures FollowAccumulated(kind, more, rest, j) == FollowAccumulated(kind, more, rest[..j], j)
    decreases j
  {
    if j > 0 && more && rest != [] {
      assert rest[..j][0] == rest[0] && rest[..j][1..] == rest[1..][..j - 1];
      if IsOkPage(rest[0]) {
        FollowAccumulatedReadsPrefix(kind, rest[0].data.value.hasNext, rest[1..], j - 1);
      }
    }
  }

  lemma AccumulatedReadsPrefix(kind: Collection, responses: seq<Response>, k: nat)
    requires 1 <= k <= |responses|
    ensures Accumulated(kind, responses, k) == Accumulated(kind, responses[..k], k)
  {
    var cut := responses[..k];
    assert cut[0] == responses[0] && cut[1..] == responses[1..][..k - 1];
    if IsOkPage(responses[0]) {
      FollowAccumulatedReadsPrefix(kind, responses[0].data.value.hasNext, responses[1..], k - 1);
    }
  }

  lemma {:induction false} FollowStopIgnoresRest(kind: Collection, more: bool, rest: seq<Response>, k: nat,
                                                 bad: Response, after: seq<Response>)
    requires k <= |rest| && bad.Http? && !bad.ok
    ensures Follow(kind, more, rest[..k] + [bad] + after) == Follow(kind, more, rest[..k] + [bad])
    decreases k
  {
    var long := rest[..k] + [bad] + after;
    var short := rest[..k] + [bad];
    if more && k > 0 {
      assert long[0] == short[0] == rest[0];
      assert long[1..] == rest[1..][..k - 1] + [bad] + after;
      assert short[1..] == rest[1..][..k - 1] + [bad];
      FollowStopIgnoresRest(kind, more, rest[1..], k - 1, bad, after);
      if rest[0].Http? && rest[0].ok && rest[0].data.Some? {
        FollowStopIgnoresRest(kind, rest[0].data.value.hasNext, rest[1..], k - 1, bad, after);
      }
    } else if more {
      assert long[0] == short[0] == bad;
    }
  }

  /** A non-ok page ends the loop: no later answer is read. */
  lemma LaterFailureIgnoresRest(kind: Collection, responses: seq<Response>, k: nat,
                                bad: Response, after: seq<Response>)
    requires 1 <= k <= |responses| && bad.Http? && !bad.ok
    ensures Resolve(kind, responses[..k] + [bad] + after) == Resolve(kind, responses[..k] + [bad])
  {
    var long := responses[..k] + [bad] + after;
    var short := responses[..k] + [bad];
    assert long[0] == short[0] == responses[0];
    assert long[1..] == responses[1..][..k - 1] + [bad] + after;
    assert short[1..] == responses[1..][..k - 1] + [bad];
    if IsOkPage(responses[0]) {
      FollowStopIgnoresRest(kind, responses[0].data.value.hasNext, responses[1..], k - 1, bad, after);
    }
  }

  /** Error policy, the first answer: when it is not an ok, readable page
      the resolver returns `[]`. */
  lemma FirstFailureGivesEmpty(kind: Collection, responses: seq<Response>)
    requires responses != [] && !IsOkPage(responses[0])
    ensures Resolve(kind, responses) == []
  {
  }

  lemma {:induction false} ArtistFollowAddsNothing(more: bool, rest: seq<Response>)
    ensures Follow(Artist, more, rest) == None || Follow(Artist, more, rest) == Some([])
    decreases |rest|
  {
    if more && rest != [] && rest[0].Http? && rest[0].ok && rest[0].data.Some? {
      ArtistFollowAddsNothing(rest[0].data.value.hasNext, rest[1..]);
    }
  }

  /** For an artist only the first answer's `tracks` are used, although the
      loop still follows `next` links. */
  lemma ArtistUsesFirstPageOnly(responses: seq<Response>)
    ensures Resolve(Artist, responses) == []
         || (&& IsOkPage(responses[0])
             && PageTracks(Artist, responses[0].data.value, true).Some?
             && Resolve(Artist, responses) == PageTracks(Artist, responses[0].data.value, true).value)
  {
    if responses != [] && IsOkPage(responses[0]) {
      ArtistFollowAddsNothing(responses[0].data.value.hasNext, responses[1..]);
      var page := PageTracks(Artist, responses[0].data.value, true);
      if page.Some? {
        assert page.value + [] == page.value;
      }
    }
  }

  /** A playlist page contributes exactly the descriptors of its real
      tracks; episodes and removed entries are dropped. */
  lemma PlaylistPageKeepsRealTracks(data: Data, first: bool)
    requires data.items.Some?
    ensures PageTracks(Playlist, data, first) == DescribeAll(RealTracks(data.items.value))
    ensures PageTracks(Playlist, data, first).Some? ==>
              && |PageTracks(Playlist, data, first).value| == |RealTracks(data.items.value)|
              && forall d :: d in PageTracks(Playlist, data, first).value ==>
                   exists t :: Wrapper(Some(t)) in data.items.value && t.kind == "track" && Describe(t) == Some(d)
  {
    var ts := RealTracks(data.items.value);
    var page := PageTracks(Playlist, data, first);
    if page.Some? {
      forall d | d in page.value
        ensures exists t :: Wrapper(Some(t)) in data.items.value && t.kind == "track" && Describe(t) == Some(d)
      {
        var i :| 0 <= i < |page.value| && page.value[i] == d;
        assert Describe(ts[i]) == Some(d);
        assert ts[i] in ts;
      }
    }
  }

  /** Two album pages, the first with two tracks and a `next` link and the
      second with one track and none, give three descriptors in page order. */
  lemma TwoPagesInOrder(a: TrackObject, b: TrackObject, c: TrackObject)
    requires a.spotifyUrl.Some? && b.spotifyUrl.Some? && c.spotifyUrl.Some?
    ensures Resolve(Album, [Http(true, Some(Data(Some([TrackItem(a), TrackItem(b)]), None, true))),
                            Http(true, Some(Data(Some([TrackItem(c)]), None, false)))])
         == [Describe(a).value, Describe(b).value, Describe(c).value]
  {
    var first := [TrackItem(a), TrackItem(b)];
    var second := [TrackItem(c)];
    var rs := [Http(true, Some(Data(Some(first), None, true))), Http(true, Some(Data(Some(second), None, false)))];
    assert rs[1..][1..] == [];
    assert first[0].TrackItem? && first[1].TrackItem? && second[0].TrackItem?;
    assert AsTracks(first).value == [a, b];
    assert AsTracks(second).value == [c];
    var d1 := DescribeAll([a, b]);
    var d2 := DescribeAll([c]);
    assert d1.Some? && d2.Some?;
    assert d1.value == [Describe(a).value, Describe(b).value];
    assert d2.value == [Describe(c).value];
    var p1 := Data(Some(first), None, true);
    var p2 := Data(Some(second), None, false);
    assert PageTracks(Album, p1, true) == d1;
    assert PageTracks(Album, p2, false) == d2;
    assert Follow(Album, true, rs[1..]) == Some(d2.value) by {
      assert Follow(Album, false, rs[1..][1..]) == Some([]);
      assert d2.value + [] == d2.value;
    }
    assert Fetch(Album, rs) == Some(d1.value + d2.value);
  }
}
