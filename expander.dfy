/** The collection expander (`handleEnhancedDownload`): resolve a collection
    into its tracks, submit one track job per track to the scheduler (or
    the collection itself when no track was found), and join the promises
    all-or-nothing. */
module Expander {
  import opened Jobs
  import opened Scheduling
  import opened Resolver

  /** The job submitted for one resolved track: it writes into the
      collection's folder and is named "<track> - <artist>". */
  function TrackJob(d: Descriptor, outputPath: string): (r: Job)
    ensures r.url == d.url && r.outputPath == outputPath && r.kind == "track"
    ensures r.name == d.name + " - " + d.artist
  {
    Job(d.url, outputPath, "track", d.name + " - " + d.artist)
  }

  /** The submissions made for the collection job `job` once its tracks
      `tracks` are known: the collection itself when there are none (the
      fallback to a whole-collection download), otherwise one track job per
      track, in track order. */
  function Submissions(job: Job, tracks: seq<Descriptor>): (r: seq<Job>)
    ensures tracks == [] ==> r == [job]
    ensures tracks != [] ==> |r| == |tracks|
    ensures tracks != [] ==> forall i :: 0 <= i < |tracks| ==> r[i] == TrackJob(tracks[i], job.outputPath)
  {
    if tracks == [] then [job]
    else seq(|tracks|, i requires 0 <= i < |tracks| => TrackJob(tracks[i], job.outputPath))
  }

  /** Expansion count: one submission for no tracks, K for K tracks; every
      submission writes into the collection's folder, and with tracks every
      one of them is a 'track' job whose locator is the track's. */
  lemma SubmissionsShape(job: Job, tracks: seq<Descriptor>)
    ensures |Submissions(job, tracks)| == if tracks == [] then 1 else |tracks|
    ensures forall i :: 0 <= i < |Submissions(job, tracks)| ==> Submissions(job, tracks)[i].outputPath == job.outputPath
    ensures tracks != [] ==> forall i :: 0 <= i < |tracks| ==>
              && Submissions(job, tracks)[i].kind == "track"
              && Submissions(job, tracks)[i].url == tracks[i].url
  {
  }

  /** The value of the decimal numeral `s`. */
  function DecimalValue(s: string): nat
    requires forall i :: 0 <= i < |s| ==> '0' <= s[i] <= '9'
  {
    if s == [] then 0 else 10 * DecimalValue(s[..|s| - 1]) + (s[|s| - 1] - '0') as nat
  }

  /** `String(n)` for a natural number: its decimal numeral, without leading
      zeros. */
  function NatToString(n: nat): (r: string)
    ensures r != [] && forall i :: 0 <= i < |r| ==> '0' <= r[i] <= '9'
    ensures r[0] == '0' ==> r == "0"
    ensures DecimalValue(r) == n
    decreases n
  {
    var digit := ['0' + (n % 10) as char];
    if n < 10 then digit
    else
      var front := NatToString(n / 10);
      assert (front + digit)[..|front + digit| - 1] == front;
      front + digit
  }

  /** The numeral names the number: two counts give the same message text
      only when they are equal. */
  lemma NatToStringInjective(m: nat, n: nat)
    ensures NatToString(m) == NatToString(n) ==> m == n
  {
  }

  /** `Promise.all` over the track promises, given their outcomes in the
      order they settle: the first rejection rejects the join with its
      error; `None` when every promise resolved. */
  function FirstRejection(outcomes: seq<Outcome>): (r: Option<string>)
    ensures r.None? <==> forall i :: 0 <= i < |outcomes| ==> outcomes[i].Resolved?
    ensures r.Some? ==> exists i :: && 0 <= i < |outcomes| && outcomes[i] == Rejected(r.value)
                                    && forall j :: 0 <= j < i ==> outcomes[j].Resolved?
  {
    if outcomes == [] then None
    else if outcomes[0].Rejected? then Some(outcomes[0].error)
    else
      var rest := FirstRejection(outcomes[1..]);
      if rest.Some? then
        ghost var i :| && 0 <= i < |outcomes[1..]| && outcomes[1..][i] == Rejected(rest.value)
                       && forall j :: 0 <= j < i ==> outcomes[1..][j].Resolved?;
        assert outcomes[i + 1] == Rejected(rest.value);
        rest
      else rest
  }

  /** The message with which an expanded download of `count` tracks
      resolves. */
  function CompletedMessage(count: nat): (m: string)
    ensures |m| == 29 + |NatToString(count)| + 7
    ensures m[..29] == "Enhanced download completed: " && m[|m| - 7..] == " tracks"
    ensures m[29..|m| - 7] == NatToString(count) && DecimalValue(m[29..|m| - 7]) == count
  {
    var m := "Enhanced download completed: " + NatToString(count) + " tracks";
    assert m[29..|m| - 7] == NatToString(count);
    m
  }

  /** Different counts give different completion messages. */
  lemma CompletedMessageInjective(m: nat, n: nat)
    ensures CompletedMessage(m) == CompletedMessage(n) ==> m == n
  {
  }

  /** How the promise of `handleEnhancedDownload` settles, given the number
      of tracks found and the outcomes of its submissions in the order they
      settle: the fallback passes its single outcome on; otherwise the join
      is all-or-nothing. */
  function EnhancedOutcome(count: nat, outcomes: seq<Outcome>): (r: Outcome)
    requires |outcomes| == if count == 0 then 1 else count
    ensures count == 0 ==> r == outcomes[0]
    ensures count > 0 ==> (r.Resolved? <==> forall i :: 0 <= i < |outcomes| ==> outcomes[i].Resolved?)
    ensures count > 0 && r.Resolved? ==> r.value == CompletedMessage(count)
    ensures count > 0 && r.Rejected? ==> exists i :: && 0 <= i < |outcomes| && outcomes[i] == r
                                                      && forall j :: 0 <= j < i ==> outcomes[j].Resolved?
  {
    if count == 0 then outcomes[0]
    else match FirstRejection(outcomes)
      case Some(e) => Rejected(e)
      case None => Resolved(CompletedMessage(count))
  }

  /** `tracks.map(track => queueDownload(...))`: submit `jobs` one after the
      other, keeping their promises in order.  The new state is the closed
      form: the first jobs take the free slots and the rest join the queue. */
  method SubmitAll(s: Scheduler, jobs: seq<Job>) returns (handles: seq<Handle>)
    requires s.Valid()
    modifies s
    ensures s.Valid()
    ensures |handles| == |jobs| && forall i :: 0 <= i < |jobs| ==> handles[i] == old(s.nextHandle) + i
    ensures s.Snapshot() == AfterSubmits(old(s.Snapshot()), old(s.Capacity()), jobs)
  {
    ghost var st := s.Snapshot();
    handles := [];
    while |handles| < |jobs|
      invariant |handles| <= |jobs| && s.Valid()
      invariant forall k :: 0 <= k < |handles| ==> handles[k] == st.nextHandle + k
      invariant s.Snapshot() == AfterSubmits(st, s.Capacity(), jobs[..|handles|])
    {
      handles := SubmitNext(s, st, jobs, handles);
    }
    assert jobs[..|handles|] == jobs;
  }

  /** One round of `SubmitAll`: submit the next of `jobs` to a scheduler
      that has received the ones before it since it was in state `st`,
      and add the new promise to `handles`. */
  method SubmitNext(s: Scheduler, ghost st: State, jobs: seq<Job>, handles: seq<Handle>) returns (more: seq<Handle>)
    requires |handles| < |jobs| && s.Valid() && s.Snapshot() == AfterSubmits(st, s.Capacity(), jobs[..|handles|])
    requires forall k :: 0 <= k < |handles| ==> handles[k] == st.nextHandle + k
    modifies s
    ensures s.Valid() && |more| == |handles| + 1
    ensures forall k :: 0 <= k < |more| ==> more[k] == st.nextHandle + k
    ensures s.Snapshot() == AfterSubmits(st, s.Capacity(), jobs[..|more|])
  {
    var i := |handles|;
    var h := s.Submit(jobs[i]);
    assert jobs[..i + 1][..i] == jobs[..i];
    more := handles + [h];
  }

  /** The synchronous part of `handleEnhancedDownload` for the collection job
      `job` of category `kind`, once `fetchTracks` has received `responses`:
      the submissions are the fallback or the track jobs, in order. */
  method HandleEnhancedDownload(s: Scheduler, job: Job, kind: Collection, responses: seq<Response>)
    returns (tracks: seq<Descriptor>, handles: seq<Handle>)
    requires s.Valid()
    modifies s
    ensures s.Valid()
    ensures tracks == Resolve(kind, responses)
    ensures |handles| == |Submissions(job, tracks)|
    ensures forall i :: 0 <= i < |handles| ==> handles[i] == old(s.nextHandle) + i
    ensures s.Snapshot() == AfterSubmits(old(s.Snapshot()), old(s.Capacity()), Submissions(job, tracks))
  {
    var request;
    request, tracks := FetchTracks(job.url, kind, responses);
    handles := SubmitAll(s, Submissions(job, tracks));
  }
}
