/** Downloading a message's attachments into its directory. What the network,
    the host parser and the disk answer for a ref is part of the input. */
module Attachments {
  import opened Options
  import opened AttachmentNames

  /** `lower` is the name in lower case, `httpsHost` the URL's lower-case host
      when it parses as an https URL. */
  datatype AttachmentRef = AttachmentRef(name: string, lower: string, url: string, httpsHost: Option<string>,
                                         contentType: Option<string>, size: nat)

  datatype Fetched = Bytes(bytes: seq<byte>) | TooBig | HttpError(status: nat) | FetchFailed | TaskFailed

  /** A ref, what fetching it would give, and whether the disk would take it. */
  datatype Job = Job(r: AttachmentRef, fetched: Fetched, stores: bool)

  datatype MaterializeOpts = MaterializeOpts(maxBytes: nat, maxCount: nat,
                                             allowedExt: seq<string>, allowedHosts: seq<string>)

  datatype Reason =
    | TooMany
    | Exceeds
    | ExtensionNotAllowed
    | UntrustedHost
    | Http(status: nat)
    | DownloadFailed
    | ContentMismatch

  /** `file` is the path relative to the destination directory. */
  datatype Saved = Saved(file: string, name: string, contentType: Option<string>, size: nat)
  datatype Skipped = Skipped(name: string, reason: Reason)
  datatype Outcome = Materialized(saved: seq<Saved>, skipped: seq<Skipped>) | DiskFailed

  // --- one ref ---

  predicate HostTrusted(r: AttachmentRef, o: MaterializeOpts) {
    o.allowedHosts == [] || "file://" <= r.url || (r.httpsHost.Some? && r.httpsHost.value in o.allowedHosts)
  }

  /** A ref that would be saved if there were room. */
  predicate Acceptable(j: Job, o: MaterializeOpts) {
    && j.r.size <= o.maxBytes
    && (o.allowedExt != [] ==> ExtOf(j.r.lower) in o.allowedExt)
    && (o.allowedHosts != [] && !("file://" <= j.r.url) ==>
          exists host :: host in o.allowedHosts && j.r.httpsHost == Some(host))
    && j.fetched.Bytes? && |j.fetched.bytes| <= o.maxBytes
    && !ContradictsExtension(ExtOf(j.r.lower), j.fetched.bytes)
  }

  /** Why a ref is turned away: the first of the checks, in order, that it fails. */
  predicate Explains(j: Job, o: MaterializeOpts, reason: Reason) {
    match reason
    case TooMany => false
    case Exceeds =>
      || j.r.size > o.maxBytes
      || (Requested(j, o) && (j.fetched.TooBig? || (j.fetched.Bytes? && |j.fetched.bytes| > o.maxBytes)))
    case ExtensionNotAllowed =>
      j.r.size <= o.maxBytes && o.allowedExt != [] && ExtOf(j.r.lower) !in o.allowedExt
    case UntrustedHost =>
      j.r.size <= o.maxBytes && (o.allowedExt == [] || ExtOf(j.r.lower) in o.allowedExt) && !HostTrusted(j.r, o)
    case Http(status) => Requested(j, o) && j.fetched == HttpError(status)
    case DownloadFailed => Requested(j, o) && (j.fetched.FetchFailed? || j.fetched.TaskFailed?)
    case ContentMismatch =>
      && Requested(j, o) && j.fetched.Bytes? && |j.fetched.bytes| <= o.maxBytes
      && ContradictsExtension(ExtOf(j.r.lower), j.fetched.bytes)
  }

  /** A ref that passes every check made before the network is used. */
  predicate Requested(j: Job, o: MaterializeOpts) {
    j.r.size <= o.maxBytes && (o.allowedExt == [] || ExtOf(j.r.lower) in o.allowedExt) && HostTrusted(j.r, o)
  }

  /** The checks in order; None is acceptance. */
  function Verdict(j: Job, o: MaterializeOpts): (reason: Option<Reason>)
    ensures reason.None? <==> Acceptable(j, o)
    ensures reason.Some? ==> Explains(j, o, reason.value)
  {
    if j.r.size > o.maxBytes then Some(Exceeds)
    else if o.allowedExt != [] && ExtOf(j.r.lower) !in o.allowedExt then Some(ExtensionNotAllowed)
    else if !HostTrusted(j.r, o) then Some(UntrustedHost)
    else
      match j.fetched
      case TaskFailed => Some(DownloadFailed)
      case TooBig => Some(Exceeds)
      case HttpError(status) => Some(Http(status))
      case FetchFailed => Some(DownloadFailed)
      case Bytes(bytes) =>
        if |bytes| > o.maxBytes then Some(Exceeds)
        else if ContradictsExtension(ExtOf(j.r.lower), bytes) then Some(ContentMismatch)
        else None
  }

  method Examine(j: Job, o: MaterializeOpts) returns (reason: Option<Reason>)
    ensures reason == Verdict(j, o)
    ensures reason.None? ==> j.fetched.Bytes?
  {
    if j.r.size > o.maxBytes { return Some(Exceeds); }
    var ext := ExtOf(j.r.lower);
    if o.allowedExt != [] && ext !in o.allowedExt { return Some(ExtensionNotAllowed); }
    if o.allowedHosts != [] && !("file://" <= j.r.url) {
      var trusted := j.r.httpsHost.Some? && j.r.httpsHost.value in o.allowedHosts;
      if !trusted { return Some(UntrustedHost); }
    }
    match j.fetched {
      case TaskFailed => return Some(DownloadFailed);
      case Bytes(bytes) => if |bytes| > o.maxBytes { return Some(Exceeds); }
      case TooBig => return Some(Exceeds);
      case HttpError(status) => return Some(Http(status));
      case FetchFailed => return Some(DownloadFailed);
    }
    if ContradictsExtension(ext, j.fetched.bytes) { return Some(ContentMismatch); }
    return None;
  }

  /** A ref has no reason or exactly one. */
  lemma OneReason(j: Job, o: MaterializeOpts, a: Reason, b: Reason)
    requires Explains(j, o, a)
    ensures !Acceptable(j, o) && (Explains(j, o, b) ==> a == b)
  {
  }

  // --- which refs ---

  /** The verdicts, ref by ref. */
  function Verdicts(jobs: seq<Job>, o: MaterializeOpts): seq<Option<Reason>> {
    seq(|jobs|, i requires 0 <= i < |jobs| => Verdict(jobs[i], o))
  }

  /** How many of the first `n` are acceptable. */
  function Passing(vs: seq<Option<Reason>>, n: nat): nat
    requires n <= |vs|
  {
    if n == 0 then 0 else Passing(vs, n - 1) + if vs[n - 1].None? then 1 else 0
  }

  /** Acceptable, and fewer than `cap` acceptable refs come before it. */
  predicate Chosen(vs: seq<Option<Reason>>, cap: nat, i: nat)
    requires i < |vs|
  {
    vs[i].None? && Passing(vs, i) < cap
  }

  /** The positions below `n` that are chosen, or that are not, in order. */
  function Positions(vs: seq<Option<Reason>>, cap: nat, chosen: bool, n: nat): seq<nat>
    requires n <= |vs|
  {
    if n == 0 then []
    else
      var rest := Positions(vs, cap, chosen, n - 1);
      if Chosen(vs, cap, n - 1) == chosen then rest + [n - 1] else rest
  }

  ghost predicate SavedFrom(jobs: seq<Job>, positions: seq<nat>, saved: seq<Saved>) {
    && |saved| == |positions|
    && forall k :: 0 <= k < |saved| ==>
         && positions[k] < |jobs| && jobs[positions[k]].fetched.Bytes?
         && var j := jobs[positions[k]];
            saved[k] == Saved(saved[k].file, j.r.name, j.r.contentType, |j.fetched.bytes|)
  }

  /** Past the cap a ref is one too many; before it, its verdict says why. */
  ghost predicate SkippedFor(jobs: seq<Job>, vs: seq<Option<Reason>>, cap: nat, i: nat, s: Skipped) {
    && i < |jobs| == |vs| && s.name == jobs[i].r.name
    && if Passing(vs, i) >= cap then s.reason == TooMany else vs[i] == Some(s.reason)
  }

  ghost predicate SkippedFrom(jobs: seq<Job>, vs: seq<Option<Reason>>, cap: nat, positions: seq<nat>,
                              skipped: seq<Skipped>)
  {
    |skipped| == |positions| && forall k :: 0 <= k < |skipped| ==> SkippedFor(jobs, vs, cap, positions[k], skipped[k])
  }

  function Files(saved: seq<Saved>): set<string> {
    set k | 0 <= k < |saved| :: saved[k].file
  }

  /** Each file is its ref's sanitized name, made different from the files before it. */
  ghost predicate Named(saved: seq<Saved>) {
    forall k :: 0 <= k < |saved| ==> Deduped(SanitizeName(saved[k].name), Files(saved[..k]), saved[k].file)
  }

  /** Where the loop stands after the first `n` refs. */
  ghost predicate Progress(jobs: seq<Job>, vs: seq<Option<Reason>>, cap: nat, n: nat, accepted: nat, saved: seq<Saved>,
                           skipped: seq<Skipped>)
  {
    && n <= |jobs| == |vs|
    && accepted == (if Passing(vs, n) < cap then Passing(vs, n) else cap)
    && (forall k :: 0 <= k < n && Chosen(vs, cap, k) ==> jobs[k].stores)
    && SavedFrom(jobs, Positions(vs, cap, true, n), saved)
    && SkippedFrom(jobs, vs, cap, Positions(vs, cap, false, n), skipped)
  }

  method MaterializeAttachments(jobs: seq<Job>, o: MaterializeOpts) returns (outcome: Outcome)
    ensures var vs := Verdicts(jobs, o);
            && (outcome.DiskFailed? <==> exists i :: 0 <= i < |jobs| && Chosen(vs, o.maxCount, i) && !jobs[i].stores)
            && (outcome.Materialized? ==>
                  && SavedFrom(jobs, Positions(vs, o.maxCount, true, |jobs|), outcome.saved)
                  && SkippedFrom(jobs, vs, o.maxCount, Positions(vs, o.maxCount, false, |jobs|), outcome.skipped)
                  && Named(outcome.saved))
  {
    ghost var vs := Verdicts(jobs, o);
    var saved: seq<Saved>, skipped: seq<Skipped> := [], [];
    var used: set<string>, accepted := {}, 0;
    for i := 0 to |jobs|
      invariant Progress(jobs, vs, o.maxCount, i, accepted, saved, skipped)
      invariant used == Files(saved) && Named(saved)
    {
      var j := jobs[i];
      if accepted >= o.maxCount {
        SkipKeeps(jobs, vs, o.maxCount, i, accepted, saved, skipped, TooMany);
        skipped := skipped + [Skipped(j.r.name, TooMany)];
        continue;
      }
      var reason := Examine(j, o);
      if reason.Some? {
        SkipKeeps(jobs, vs, o.maxCount, i, accepted, saved, skipped, reason.value);
        skipped := skipped + [Skipped(j.r.name, reason.value)];
        continue;
      }
      var file, taken := Dedupe(SanitizeName(j.r.name), used);
      if !j.stores {
        assert Chosen(vs, o.maxCount, i);
        return DiskFailed;
      }
      var s := Saved(file, j.r.name, j.r.contentType, |j.fetched.bytes|);
      SaveKeeps(jobs, vs, o.maxCount, i, accepted, saved, skipped, s);
      FilesOneMore(saved, s);
      NamedOneMore(saved, s);
      used, saved := taken, saved + [s];
      accepted := accepted + 1;
    }
    return Materialized(saved, skipped);
  }

  lemma SkipKeeps(jobs: seq<Job>, vs: seq<Option<Reason>>, cap: nat, n: nat, accepted: nat, saved: seq<Saved>,
                  skipped: seq<Skipped>, reason: Reason)
    requires Progress(jobs, vs, cap, n, accepted, saved, skipped) && n < |jobs|
    requires if accepted >= cap then reason == TooMany else vs[n] == Some(reason)
    ensures Progress(jobs, vs, cap, n + 1, accepted, saved, skipped + [Skipped(jobs[n].r.name, reason)])
  {
    assert !Chosen(vs, cap, n);
  }

  lemma SaveKeeps(jobs: seq<Job>, vs: seq<Option<Reason>>, cap: nat, n: nat, accepted: nat, saved: seq<Saved>,
                  skipped: seq<Skipped>, s: Saved)
    requires Progress(jobs, vs, cap, n, accepted, saved, skipped) && n < |jobs|
    requires accepted < cap && vs[n].None? && jobs[n].stores && jobs[n].fetched.Bytes?
    requires s == Saved(s.file, jobs[n].r.name, jobs[n].r.contentType, |jobs[n].fetched.bytes|)
    ensures Progress(jobs, vs, cap, n + 1, accepted + 1, saved + [s], skipped)
  {
    assert Chosen(vs, cap, n);
    SavedOneMore(jobs, Positions(vs, cap, true, n), saved, n, s);
  }

  lemma FilesOneMore(saved: seq<Saved>, s: Saved)
    ensures Files(saved + [s]) == Files(saved) + {s.file}
  {
    var more := saved + [s];
    assert more[|saved|] == s;
    forall f | f in Files(saved) ensures f in Files(more) {
      var k :| 0 <= k < |saved| && saved[k].file == f;
      assert more[k] == saved[k];
    }
  }

  lemma NamedOneMore(saved: seq<Saved>, s: Saved)
    requires Named(saved) && Deduped(SanitizeName(s.name), Files(saved), s.file)
    ensures Named(saved + [s])
  {
    var more := saved + [s];
    forall k | 0 <= k < |more| ensures Deduped(SanitizeName(more[k].name), Files(more[..k]), more[k].file) {
      if k < |saved| {
        assert more[..k] == saved[..k];
      } else {
        assert more[..k] == saved;
      }
    }
  }

  lemma SavedOneMore(jobs: seq<Job>, positions: seq<nat>, saved: seq<Saved>, i: nat, s: Saved)
    requires SavedFrom(jobs, positions, saved) && i < |jobs| && jobs[i].fetched.Bytes?
    requires s == Saved(s.file, jobs[i].r.name, jobs[i].r.contentType, |jobs[i].fetched.bytes|)
    ensures SavedFrom(jobs, positions + [i], saved + [s])
  {
  }

  // --- what follows ---

  lemma {:induction false} PositionsAscend(vs: seq<Option<Reason>>, cap: nat, chosen: bool, n: nat)
    requires n <= |vs|
    ensures Ascending(Positions(vs, cap, chosen, n), n)
  {
    if n > 0 { PositionsAscend(vs, cap, chosen, n - 1); }
  }

  lemma {:induction false} PositionsHold(vs: seq<Option<Reason>>, cap: nat, chosen: bool, n: nat, i: nat)
    requires i < n <= |vs|
    ensures i in Positions(vs, cap, chosen, n) <==> Chosen(vs, cap, i) == chosen
  {
    PositionsAscend(vs, cap, chosen, n - 1);
    if i < n - 1 { PositionsHold(vs, cap, chosen, n - 1, i); }
  }

  lemma {:induction false} PositionsCount(vs: seq<Option<Reason>>, cap: nat, n: nat)
    requires n <= |vs|
    ensures |Positions(vs, cap, true, n)| + |Positions(vs, cap, false, n)| == n
  {
    if n > 0 { PositionsCount(vs, cap, n - 1); }
  }

  /** The chosen and the other positions split the refs, each list in order. */
  lemma PositionsSplit(vs: seq<Option<Reason>>, cap: nat, n: nat)
    requires n <= |vs|
    ensures var yes, no := Positions(vs, cap, true, n), Positions(vs, cap, false, n);
            && |yes| + |no| == n && Ascending(yes, n) && Ascending(no, n)
            && (forall i :: 0 <= i < n ==> (i in yes <==> Chosen(vs, cap, i)) && (i in no <==> !Chosen(vs, cap, i)))
  {
    PositionsCount(vs, cap, n);
    PositionsAscend(vs, cap, true, n);
    PositionsAscend(vs, cap, false, n);
    forall i | 0 <= i < n
      ensures i in Positions(vs, cap, true, n) <==> Chosen(vs, cap, i)
      ensures i in Positions(vs, cap, false, n) <==> !Chosen(vs, cap, i)
    {
      PositionsHold(vs, cap, true, n, i);
      PositionsHold(vs, cap, false, n, i);
    }
  }

  predicate Ascending(s: seq<nat>, n: nat) {
    (forall a, b :: 0 <= a < b < |s| ==> s[a] < s[b]) && forall a :: 0 <= a < |s| ==> s[a] < n
  }

  /** As many are chosen as are acceptable, up to the cap: the chosen ones are
      the first acceptable ones. */
  lemma {:induction false} ChosenFillTheCap(vs: seq<Option<Reason>>, cap: nat, n: nat)
    requires n <= |vs|
    ensures |Positions(vs, cap, true, n)| == if Passing(vs, n) < cap then Passing(vs, n) else cap
  {
    if n > 0 { ChosenFillTheCap(vs, cap, n - 1); }
  }

  /** Every saved file is a safe name, and no two are the same. */
  lemma FilesAreSafeAndDistinct(saved: seq<Saved>)
    requires Named(saved)
    ensures forall k :: 0 <= k < |saved| ==> SafeName(saved[k].file)
    ensures forall k, l :: 0 <= k < l < |saved| ==> saved[k].file != saved[l].file
  {
    forall k | 0 <= k < |saved| ensures SafeName(saved[k].file) {
      SanitizedExactly(saved[k].name, saved[k].name);
      DedupedIsSafe(SanitizeName(saved[k].name), Files(saved[..k]), saved[k].file);
    }
    forall k, l | 0 <= k < l < |saved| ensures saved[k].file != saved[l].file {
      assert saved[..l][k] == saved[k];
    }
  }

  function TotalSize(saved: seq<Saved>): nat {
    if saved == [] then 0 else TotalSize(saved[..|saved| - 1]) + saved[|saved| - 1].size
  }

  lemma {:induction false} SizesAddUp(saved: seq<Saved>, limit: nat)
    requires forall k :: 0 <= k < |saved| ==> saved[k].size <= limit
    ensures TotalSize(saved) <= |saved| * limit
  {
    if saved != [] {
      SizesAddUp(saved[..|saved| - 1], limit);
      assert |saved| * limit == (|saved| - 1) * limit + limit;
    }
  }

  lemma Scales(a: nat, b: nat, c: nat)
    requires a <= b
    ensures a * c <= b * c
  {
  }

  /** At most `maxCount` files and `maxCount` times `maxBytes` bytes are written. */
  lemma BytesAreCapped(jobs: seq<Job>, o: MaterializeOpts, saved: seq<Saved>)
    requires SavedFrom(jobs, Positions(Verdicts(jobs, o), o.maxCount, true, |jobs|), saved)
    ensures |saved| <= o.maxCount && TotalSize(saved) <= o.maxCount * o.maxBytes
  {
    var vs := Verdicts(jobs, o);
    ChosenFillTheCap(vs, o.maxCount, |jobs|);
    PositionsSplit(vs, o.maxCount, |jobs|);
    var yes := Positions(vs, o.maxCount, true, |jobs|);
    forall k | 0 <= k < |saved| ensures saved[k].size <= o.maxBytes {
      assert yes[k] in yes;
      assert Chosen(vs, o.maxCount, yes[k]);
    }
    SizesAddUp(saved, o.maxBytes);
    Scales(|saved|, o.maxCount, o.maxBytes);
  }
}
