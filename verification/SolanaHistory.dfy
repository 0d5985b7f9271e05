/** Solana wallet history: the signature pagination loop and the two-ended head/before cursor. */
module SolanaHistory {
  import opened Common

  /** A 64-byte signature, as the number its bytes spell. */
  type Signature = nat

  datatype Config = Config(before: Option<Signature>, until: Option<Signature>, limit: nat)

  /** A provider answers the n-th call of one pagination as it likes. */
  type Provider = (nat, Config) -> Result<seq<Signature>>

  // ---------------------------------------------------------------------------
  // The faithful provider: newest first, new signatures are prepended between calls
  // ---------------------------------------------------------------------------

  ghost predicate Distinct(h: seq<Signature>) { forall i, j | 0 <= i < j < |h| :: h[i] != h[j] }

  ghost function Index(h: seq<Signature>, s: Signature): nat
    requires s in h
    ensures Index(h, s) < |h| && h[Index(h, s)] == s
  {
    var i :| 0 <= i < |h| && h[i] == s;
    i
  }

  lemma {:induction false} IndexIs(h: seq<Signature>, i: nat)
    requires Distinct(h) && i < |h|
    ensures h[i] in h && Index(h, h[i]) == i
  {
    assert h[i] in h;
  }

  ghost predicate Known(h: seq<Signature>, s: Option<Signature>) { s.Some? ==> s.value in h }

  /** The signatures strictly older than `before` and strictly newer than `until`. */
  ghost function Segment(h: seq<Signature>, before: Option<Signature>, until: Option<Signature>): seq<Signature>
    requires Known(h, before) && Known(h, until)
  {
    var from := if before.None? then 0 else Index(h, before.value) + 1;
    var to := if until.None? then |h| else Index(h, until.value);
    if from <= to then h[from..to] else []
  }

  function Take(s: seq<Signature>, n: nat): seq<Signature> { if |s| <= n then s else s[..n] }

  ghost predicate Newer(h: seq<Signature>, g: seq<Signature>) { |h| <= |g| && g[|g| - |h|..] == h }

  /** `shown(n)` is what the provider knows at call n. */
  ghost predicate Honest(provider: Provider, shown: nat -> seq<Signature>) {
    && (forall n: nat :: Distinct(shown(n)))
    && (forall n: nat :: Newer(shown(0), shown(n)))
    && (forall n: nat, c: Config | Known(shown(n), c.before) && Known(shown(n), c.until) ::
          provider(n, c) == Ok(Take(Segment(shown(n), c.before, c.until), c.limit)))
  }

  lemma {:induction false} PrependShifts(h: seq<Signature>, g: seq<Signature>, s: Signature)
    requires Distinct(g) && Newer(h, g) && s in h
    ensures s in g && Index(g, s) == |g| - |h| + Index(h, s)
  {
    var i := |g| - |h| + Index(h, s);
    assert g[i] == g[|g| - |h|..][Index(h, s)];
    IndexIs(g, i);
  }

  /** Prepending signatures does not change what lies behind a known cursor. */
  lemma {:induction false} PrependKeepsSegment(h: seq<Signature>, g: seq<Signature>, before: Signature,
                                               until: Option<Signature>)
    requires Distinct(g) && Newer(h, g) && before in h && Known(h, until)
    ensures before in g && Known(g, until)
    ensures Segment(g, Some(before), until) == Segment(h, Some(before), until)
  {
    var from, end := Index(h, before) + 1, EndOf(h, until);
    assert before in g && Index(g, before) + 1 == |g| - |h| + from by { PrependShifts(h, g, before); }
    assert Known(g, until) && EndOf(g, until) == |g| - |h| + end by { EndShifts(h, g, until); }
    if from <= end { SliceShifts(h, g, from, end); }
  }

  ghost function EndOf(h: seq<Signature>, until: Option<Signature>): nat
    requires Known(h, until)
  {
    if until.None? then |h| else Index(h, until.value)
  }

  lemma {:induction false} EndShifts(h: seq<Signature>, g: seq<Signature>, until: Option<Signature>)
    requires Distinct(g) && Newer(h, g) && Known(h, until)
    ensures Known(g, until) && EndOf(g, until) == |g| - |h| + EndOf(h, until) && EndOf(h, until) <= |h|
  {
    if until.Some? { PrependShifts(h, g, until.value); }
  }

  lemma {:induction false} SliceShifts(h: seq<Signature>, g: seq<Signature>, from: nat, to: nat)
    requires Newer(h, g) && from <= to <= |h|
    ensures g[|g| - |h| + from..|g| - |h| + to] == h[from..to]
  {
    var d := |g| - |h|;
    assert g == g[..d] + h;
    assert (g[..d] + h)[d + from..d + to] == h[from..to];
  }

  /** Resuming after the k-th signature of a segment leaves the rest of it. */
  lemma {:induction false} SegmentAfter(h: seq<Signature>, before: Option<Signature>, until: Option<Signature>, k: nat)
    requires Distinct(h) && Known(h, before) && Known(h, until)
    requires 0 < k <= |Segment(h, before, until)|
    ensures var seg := Segment(h, before, until);
            seg[k - 1] in h && Segment(h, Some(seg[k - 1]), until) == seg[k..]
  {
    var from := if before.None? then 0 else Index(h, before.value) + 1;
    IndexIs(h, from + k - 1);
  }

  lemma {:induction false} SegmentDistinct(h: seq<Signature>, before: Option<Signature>, until: Option<Signature>)
    requires Distinct(h) && Known(h, before) && Known(h, until)
    ensures Distinct(Segment(h, before, until))
    ensures forall s | s in Segment(h, before, until) :: s in h && Some(s) != before
  {
  }

  // ---------------------------------------------------------------------------
  // signatures(): the pagination loop
  // ---------------------------------------------------------------------------

  function First(s: seq<Signature>): Option<Signature> { if s == [] then None else Some(s[0]) }

  function Last(s: seq<Signature>): Option<Signature> { if s == [] then None else Some(s[|s| - 1]) }

  function Or(a: Option<Signature>, b: Option<Signature>): Option<Signature> { if a.Some? then a else b }

  datatype Listing = Listing(signatures: seq<Signature>, exhausted: bool)

  /** What the loop must answer for a segment of an honest provider. */
  function Expected(seg: seq<Signature>, limit: nat, rejectOverflow: bool): Option<Listing> {
    if rejectOverflow && limit < |seg| then None
    else Some(Listing(Take(seg, limit), |seg| < limit))
  }

  ghost predicate Answers(r: Result<Listing>, expected: Option<Listing>) {
    if expected.None? then r.Err? else r == Ok(expected.value)
  }

  /** An honest provider, and cursors it knows at the first call. */
  ghost predicate Truthful(provider: Provider, shown: nat -> seq<Signature>, before0: Option<Signature>,
                           until: Option<Signature>) {
    Honest(provider, shown) && Known(shown(0), before0) && Known(shown(0), until)
  }

  /** The state of an honest pagination of the segment `seg` after collecting `got`. */
  ghost predicate OnTrack(seg: seq<Signature>, before0: Option<Signature>, got: seq<Signature>,
                          before: Option<Signature>) {
    got <= seg && before == if got == [] then before0 else Some(got[|got| - 1])
  }

  lemma {:induction false} HonestAnswer(provider: Provider, shown: nat -> seq<Signature>, n: nat, c: Config)
    requires Honest(provider, shown) && Known(shown(n), c.before) && Known(shown(n), c.until)
    ensures provider(n, c) == Ok(Take(Segment(shown(n), c.before, c.until), c.limit))
  {
  }

  lemma {:induction false} NextPage(provider: Provider, shown: nat -> seq<Signature>, n: nat, limit: nat,
                                    before0: Option<Signature>, until: Option<Signature>, got: seq<Signature>,
                                    before: Option<Signature>)
    requires Truthful(provider, shown, before0, until)
    requires OnTrack(Segment(shown(0), before0, until), before0, got, before)
    requires got == [] ==> n == 0
    ensures provider(n, Config(before, until, limit)) == Ok(Take(Segment(shown(0), before0, until)[|got|..], limit))
  {
    var seg := Segment(shown(0), before0, until);
    if got == [] {
      HonestAnswer(provider, shown, 0, Config(before, until, limit));
      assert seg[0..] == seg;
    } else {
      assert Distinct(shown(0)) && Distinct(shown(n)) && Newer(shown(0), shown(n));
      assert got[|got| - 1] == seg[|got| - 1];
      assert seg[|got| - 1] in shown(0) && Segment(shown(0), before, until) == seg[|got|..] by {
        SegmentAfter(shown(0), before0, until, |got|);
      }
      PrependKeepsSegment(shown(0), shown(n), seg[|got| - 1], until);
      HonestAnswer(provider, shown, n, Config(before, until, limit));
    }
  }

  lemma {:induction false} Collects(seg: seq<Signature>, got: seq<Signature>, pageLimit: nat)
    requires got <= seg
    ensures var page := Take(seg[|got|..], pageLimit);
            |page| <= pageLimit && got + page <= seg && (|page| < pageLimit ==> got + page == seg)
  {
    var page := Take(seg[|got|..], pageLimit);
    assert got + page == seg[..|got| + |page|];
  }

  lemma {:induction false} CursorMoves(seg: seq<Signature>, before0: Option<Signature>, got: seq<Signature>,
                                       before: Option<Signature>, page: seq<Signature>)
    requires Distinct(seg) && forall s | s in seg :: Some(s) != before0
    requires OnTrack(seg, before0, got, before) && got + page <= seg && page != []
    ensures Last(page) != before
  {
    var i := |got| + |page| - 1;
    assert page[|page| - 1] == (got + page)[i] == seg[i];
    if got != [] { assert got[|got| - 1] == seg[|got| - 1]; }
  }

  lemma {:induction false} Advance(seg: seq<Signature>, before0: Option<Signature>, got: seq<Signature>,
                                   before: Option<Signature>, pageLimit: nat)
    requires Distinct(seg) && forall s | s in seg :: Some(s) != before0
    requires OnTrack(seg, before0, got, before)
    ensures var page := Take(seg[|got|..], pageLimit);
            && |page| <= pageLimit
            && (page != [] ==> Last(page) != before)
            && OnTrack(seg, before0, got + page, Or(Last(page), before))
            && (|page| < pageLimit ==> got + page == seg)
  {
    var page := Take(seg[|got|..], pageLimit);
    Collects(seg, got, pageLimit);
    if page != [] {
      CursorMoves(seg, before0, got, before, page);
    } else {
      assert got + page == got;
    }
  }

  lemma {:induction false} SegmentIsClean(provider: Provider, shown: nat -> seq<Signature>, before0: Option<Signature>,
                                          until: Option<Signature>)
    requires Truthful(provider, shown, before0, until)
    ensures Distinct(Segment(shown(0), before0, until))
    ensures forall s | s in Segment(shown(0), before0, until) :: Some(s) != before0
  {
    SegmentDistinct(shown(0), before0, until);
  }

  /** One page of an honest provider, and the progress it makes. */
  lemma {:induction false} HonestPage(provider: Provider, shown: nat -> seq<Signature>, n: nat, pageLimit: nat,
                                      before0: Option<Signature>, until: Option<Signature>, got: seq<Signature>,
                                      before: Option<Signature>)
    requires Truthful(provider, shown, before0, until)
    requires OnTrack(Segment(shown(0), before0, until), before0, got, before)
    requires got == [] ==> n == 0
    ensures var seg := Segment(shown(0), before0, until);
            var fetched := provider(n, Config(before, until, pageLimit));
            && fetched == Ok(Take(seg[|got|..], pageLimit))
            && |fetched.value| <= pageLimit
            && (fetched.value != [] ==> Last(fetched.value) != before)
            && OnTrack(seg, before0, got + fetched.value, Or(Last(fetched.value), before))
            && (|fetched.value| < pageLimit ==> got + fetched.value == seg)
  {
    NextPage(provider, shown, n, pageLimit, before0, until, got, before);
    SegmentIsClean(provider, shown, before0, until);
    Advance(Segment(shown(0), before0, until), before0, got, before, pageLimit);
  }

  /** The overflow probe of a full listing answers exactly when the segment is longer than the limit. */
  lemma {:induction false} HonestProbe(provider: Provider, shown: nat -> seq<Signature>, n: nat,
                                       before0: Option<Signature>, until: Option<Signature>, got: seq<Signature>,
                                       before: Option<Signature>)
    requires Truthful(provider, shown, before0, until) && got != []
    requires OnTrack(Segment(shown(0), before0, until), before0, got, before)
    ensures var extra := provider(n, Config(before, until, 1));
            extra.Ok? && (extra.value == [] <==> |Segment(shown(0), before0, until)| == |got|)
  {
    NextPage(provider, shown, n, 1, before0, until, got, before);
  }

  lemma {:induction false} FullAnswer(seg: seq<Signature>, got: seq<Signature>, limit: nat)
    requires got <= seg && |got| == limit
    ensures Expected(seg, limit, false) == Some(Listing(got, false))
    ensures Expected(seg, limit, true) == if |seg| == limit then Some(Listing(got, false)) else None
  {
    assert seg[..limit] == got;
    assert |seg| == limit ==> seg[..limit] == seg;
  }

  lemma {:induction false} ShortAnswer(seg: seq<Signature>, limit: nat, rejectOverflow: bool)
    requires |seg| < limit
    ensures Expected(seg, limit, rejectOverflow) == Some(Listing(seg, true))
  {
  }

  lemma {:induction false} CallBound(limit: nat, calls: nat)
    requires 1000 * calls < limit
    ensures calls + 1 <= (limit + 999) / 1000
  {
    assert (1000 * calls + 1000) / 1000 == calls + 1;
  }

  datatype Step = Step(page: seq<Signature>, before: Option<Signature>)

  ghost predicate PageRejected(answer: Result<seq<Signature>>, c: Config) {
    answer.Err? || |answer.value| > c.limit || (answer.value != [] && Last(answer.value) == c.before)
  }

  /**
   If the provider is truthful, the pagination has collected a prefix of the segment, all of it once
   a page was short.
   */
  ghost predicate Tracked(provider: Provider, shown: nat -> seq<Signature>, before0: Option<Signature>,
                          until: Option<Signature>,
                          got: seq<Signature>, before: Option<Signature>, short: bool) {
    Truthful(provider, shown, before0, until) ==>
      var seg := Segment(shown(0), before0, until);
      OnTrack(seg, before0, got, before) && (short ==> got == seg)
  }

  lemma {:induction false} TrackStep(provider: Provider, shown: nat -> seq<Signature>, n: nat, pageLimit: nat,
                                     before0: Option<Signature>, until: Option<Signature>, got: seq<Signature>,
                                     before: Option<Signature>)
    requires Tracked(provider, shown, before0, until, got, before, false) && (got == [] ==> n == 0)
    ensures var c := Config(before, until, pageLimit);
            && (Truthful(provider, shown, before0, until) ==> !PageRejected(provider(n, c), c))
            && (!PageRejected(provider(n, c), c) ==>
                  var page := provider(n, c).value;
                  Tracked(provider, shown, before0, until, got + page, Or(Last(page), before), |page| < pageLimit))
  {
    if Truthful(provider, shown, before0, until) {
      HonestPage(provider, shown, n, pageLimit, before0, until, got, before);
    }
  }

  /** One request, with the checks on its size and on a repeated cursor. */
  method RequestPage(provider: Provider, n: nat, c: Config) returns (r: Result<Step>)
    ensures r.Err? <==> PageRejected(provider(n, c), c)
    ensures r.Ok? ==> r.value == Step(provider(n, c).value, Or(Last(provider(n, c).value), c.before))
  {
    var fetched := provider(n, c);
    if fetched.Err? { return Err(fetched.message); }
    var page, before := fetched.value, c.before;
    if |page| > c.limit { return Err("Solana provider exceeded requested page size"); }
    if page != [] {
      var next := Some(page[|page| - 1]);
      if next == before { return Err("Solana provider repeated pagination cursor"); }
      before := next;
    }
    return Ok(Step(page, before));
  }

  datatype Collected = Collected(got: seq<Signature>, before: Option<Signature>, short: bool)

  /** The paging itself: full pages until a short one or the limit. */
  method Collect(limit: nat, before0: Option<Signature>, until: Option<Signature>, provider: Provider,
                 ghost shown: nat -> seq<Signature>)
    returns (r: Result<Collected>, calls: nat)
    requires 0 < limit
    ensures calls <= (limit + 999) / 1000
    ensures r.Ok? ==> |r.value.got| <= limit && (r.value.short <==> |r.value.got| < limit)
    ensures Truthful(provider, shown, before0, until) ==> r.Ok?
    ensures r.Ok? ==> Tracked(provider, shown, before0, until, r.value.got, r.value.before, r.value.short)
  {
    var before, got, short := before0, [], false;
    calls := 0;
    while !short && |got| < limit
      invariant |got| <= limit && (short ==> |got| < limit)
      invariant !short && |got| < limit ==> |got| == 1000 * calls
      invariant calls <= (limit + 999) / 1000
      invariant Tracked(provider, shown, before0, until, got, before, short)
      decreases limit - |got| + if short then 0 else 1
    {
      var pageLimit := if limit - |got| < 1000 then limit - |got| else 1000;
      CallBound(limit, calls);
      TrackStep(provider, shown, calls, pageLimit, before0, until, got, before);
      var step := RequestPage(provider, calls, Config(before, until, pageLimit));
      calls := calls + 1;
      if step.Err? { return Err(step.message), calls; }
      before, got, short := step.value.before, got + step.value.page, |step.value.page| < pageLimit;
    }
    return Ok(Collected(got, before, short)), calls;
  }

  /**
   Pages through one segment. `calls` counts provider requests: at most one per thousand of the
   limit, plus one probe when an overflow must be rejected, whatever the provider does.
   */
  method Signatures(limit: nat, before0: Option<Signature>, until: Option<Signature>, rejectOverflow: bool,
                    provider: Provider, ghost shown: nat -> seq<Signature>)
    returns (r: Result<Listing>, calls: nat)
    ensures calls <= (limit + 999) / 1000 + if rejectOverflow then 1 else 0
    ensures !(1 <= limit <= 100_000) ==> r.Err? && calls == 0
    ensures r.Ok? ==> |r.value.signatures| <= limit && (r.value.exhausted <==> |r.value.signatures| < limit)
    ensures 1 <= limit <= 100_000 && Truthful(provider, shown, before0, until) ==>
              Answers(r, Expected(Segment(shown(0), before0, until), limit, rejectOverflow))
  {
    if !(0 < limit <= 100_000) { return Err("Solana limit must be 1-100000"), 0; }
    var collected;
    collected, calls := Collect(limit, before0, until, provider, shown);
    if collected.Err? { return Err(collected.message), calls; }
    var got, before := collected.value.got, collected.value.before;
    ghost var honest := Truthful(provider, shown, before0, until);
    if collected.value.short {
      if honest { ShortAnswer(Segment(shown(0), before0, until), limit, rejectOverflow); }
      return Ok(Listing(got, true)), calls;
    }
    if honest { FullAnswer(Segment(shown(0), before0, until), got, limit); }
    if rejectOverflow {
      if honest { HonestProbe(provider, shown, calls, before0, until, got, before); }
      var extra := provider(calls, Config(before, until, 1));
      calls := calls + 1;
      if extra.Err? { return Err(extra.message), calls; }
      if extra.value != [] { return Err("More new Solana activity than ingest_limit"), calls; }
    }
    return Ok(Listing(got, false)), calls;
  }

  // ---------------------------------------------------------------------------
  // fetch(): the cursor transition
  // ---------------------------------------------------------------------------

  datatype Cursor = Cursor(head: Option<Signature>, before: Option<Signature>, exhausted: bool)

  const EMPTY := Cursor(None, None, false)

  function FetchBefore(c: Cursor, incremental: bool): Option<Signature> { if incremental then None else c.before }

  function FetchUntil(c: Cursor, incremental: bool): Option<Signature> { if incremental then c.head else None }

  function NextCursor(c: Cursor, incremental: bool, listing: Listing): Cursor {
    Cursor(
      if incremental || c.head.None? then Or(First(listing.signatures), c.head) else c.head,
      if incremental && c.before.Some? then c.before else Or(Last(listing.signatures), FetchBefore(c, incremental)),
      if incremental then c.exhausted else listing.exhausted)
  }

  /** A successful fetch against the history `h`. */
  ghost predicate Fetched(h: seq<Signature>, c: Cursor, incremental: bool, limit: nat, listing: Listing) {
    && Known(h, c.head) && Known(h, c.before) && 0 < limit
    && Expected(Segment(h, FetchBefore(c, incremental), FetchUntil(c, incremental)), limit,
                incremental && c.head.Some?) == Some(listing)
  }

  datatype Batch = Batch(records: seq<Signature>, next: Cursor)

  /** A transaction lookup: an error, or the block time if the transaction carries one. */
  type Lookup = Signature -> Result<Option<int>>

  predicate Timed(lookup: Lookup, s: Signature) { lookup(s).Ok? && lookup(s).value.Some? }

  /** One record per signature; any transaction without a block time stops the whole fetch. */
  method Records(signatures: seq<Signature>, lookup: Lookup) returns (r: Result<seq<Signature>>)
    ensures r.Ok? <==> forall s | s in signatures :: Timed(lookup, s)
    ensures r.Ok? ==> r.value == signatures
  {
    var records: seq<Signature> := [];
    for i := 0 to |signatures|
      invariant records == signatures[..i] && forall s | s in signatures[..i] :: Timed(lookup, s)
    {
      var tx := lookup(signatures[i]);
      assert signatures[i] in signatures;
      if tx.Err? { return Err("Failed to fetch; checkpoint not advanced"); }
      if tx.value.None? { return Err("Missing blockTime"); }
      records := records + [signatures[i]];
    }
    return Ok(records);
  }

  /** What a fetch must list, given what the provider shows at its first call. */
  ghost function Listed(h: seq<Signature>, c: Cursor, incremental: bool, limit: nat): Option<Listing>
    requires Known(h, FetchBefore(c, incremental)) && Known(h, FetchUntil(c, incremental))
  {
    Expected(Segment(h, FetchBefore(c, incremental), FetchUntil(c, incremental)), limit, incremental && c.head.Some?)
  }

  /** fetch: list the segment, look every transaction up, and move the cursor only if all of it succeeded. */
  method Fetch(c: Cursor, incremental: bool, limit: nat, provider: Provider, lookup: Lookup,
               ghost shown: nat -> seq<Signature>)
    returns (r: Result<Batch>)
    ensures Truthful(provider, shown, FetchBefore(c, incremental), FetchUntil(c, incremental)) ==>
              var listed := Listed(shown(0), c, incremental, limit);
              && (r.Ok? <==> && 1 <= limit <= 100_000 && listed.Some?
                             && forall s | s in listed.value.signatures :: Timed(lookup, s))
              && (r.Ok? ==> r.value == Batch(listed.value.signatures, NextCursor(c, incremental, listed.value)))
    ensures Truthful(provider, shown, FetchBefore(c, incremental), FetchUntil(c, incremental)) ==>
              var missing := Segment(shown(0), FetchBefore(c, incremental), FetchUntil(c, incremental));
              && (r.Ok? <==> && 1 <= limit <= 100_000 && (incremental && c.head.Some? ==> |missing| <= limit)
                             && forall s | s in Take(missing, limit) :: Timed(lookup, s))
              && (r.Ok? ==> r.value.records == Take(missing, limit))
    ensures r.Ok? && incremental ==> r.value.next.exhausted == c.exhausted
    ensures r.Ok? && !incremental ==> (r.value.next.exhausted <==> |r.value.records| < limit)
  {
    var before, until := FetchBefore(c, incremental), FetchUntil(c, incremental);
    var listing, _ := Signatures(limit, before, until, incremental && c.head.Some?, provider, shown);
    if listing.Err? { return Err(listing.message); }
    var records := Records(listing.value.signatures, lookup);
    if records.Err? { return Err(records.message); }
    var head := if incremental || c.head.None? then Or(First(listing.value.signatures), c.head) else c.head;
    var older := if incremental && c.before.Some? then c.before else Or(Last(listing.value.signatures), before);
    return Ok(Batch(records.value, Cursor(head, older, if incremental then c.exhausted else listing.value.exhausted)));
  }

  /** The cursor names both ends of one contiguous interval of the history, and all of it is stored. */
  ghost predicate Covered(h: seq<Signature>, c: Cursor, rows: set<Signature>) {
    && Distinct(h)
    && (c.head.Some? <==> c.before.Some?)
    && (c.head.Some? ==>
          && c.head.value in h && c.before.value in h
          && Index(h, c.head.value) <= Index(h, c.before.value)
          && forall i | Index(h, c.head.value) <= i <= Index(h, c.before.value) :: h[i] in rows)
  }

  /** The claim of `history_exhausted`: the older end is the oldest signature. */
  ghost predicate ExhaustedIsTrue(h: seq<Signature>, c: Cursor) {
    c.exhausted && c.before.Some? ==> h != [] && c.before.value == h[|h| - 1]
  }

  /** The interval after a fetch, by position in the history. */
  lemma {:induction false} NextInterval(h: seq<Signature>, c: Cursor, incremental: bool, limit: nat, listing: Listing,
                                        rows: set<Signature>)
    requires Covered(h, c, rows) && Fetched(h, c, incremental, limit, listing)
    ensures var d := NextCursor(c, incremental, listing);
            && (c.head.None? && h == [] ==> d.head.None? && d.before.None?)
            && (c.head.None? && h != [] ==> d.head == Some(h[0]) && d.before == Some(h[|Take(h, limit)| - 1]))
            && (c.head.Some? && incremental ==> d.head == Some(h[0]) && d.before == c.before)
            && (c.head.Some? && !incremental ==>
                  d.head == c.head && d.before == Some(h[Index(h, c.before.value) + |listing.signatures|]))
            && (c.head.None? ==> listing.signatures == Take(h, limit))
            && (c.head.Some? && incremental ==> listing.signatures == h[..Index(h, c.head.value)])
            && (c.head.Some? && !incremental ==> listing.signatures == Take(h[Index(h, c.before.value) + 1..], limit))
  {
    var seg := Segment(h, FetchBefore(c, incremental), FetchUntil(c, incremental));
    if c.head.None? {
      assert seg == h;
    } else if incremental {
      assert seg == h[..Index(h, c.head.value)];
    } else {
      assert seg == h[Index(h, c.before.value) + 1..];
    }
  }

  /** An interval given by positions is covered when its positions are stored. */
  lemma {:induction false} CoveredByPositions(h: seq<Signature>, d: Cursor, a: nat, b: nat, rows: set<Signature>)
    requires Distinct(h) && a <= b < |h| && d.head == Some(h[a]) && d.before == Some(h[b])
    requires forall i | a <= i <= b :: h[i] in rows
    ensures Covered(h, d, rows)
  {
    IndexIs(h, a);
    IndexIs(h, b);
  }

  lemma {:induction false} FirstFetchCovers(h: seq<Signature>, d: Cursor, limit: nat, rows: set<Signature>)
    requires Distinct(h) && h != [] && 0 < limit && d.head == Some(h[0]) && d.before == Some(h[|Take(h, limit)| - 1])
    requires forall s | s in Take(h, limit) :: s in rows
    ensures Covered(h, d, rows)
  {
    var got := Take(h, limit);
    assert forall i | 0 <= i < |got| :: h[i] == got[i] && got[i] in got;
    CoveredByPositions(h, d, 0, |got| - 1, rows);
  }

  lemma {:induction false} IncrementalCovers(h: seq<Signature>, c: Cursor, d: Cursor, rows: set<Signature>)
    requires Covered(h, c, rows) && c.head.Some? && d.head == Some(h[0]) && d.before == c.before
    requires forall s | s in h[..Index(h, c.head.value)] :: s in rows
    ensures Covered(h, d, rows)
  {
    var a := Index(h, c.head.value);
    assert forall i | 0 <= i < a :: h[i] == h[..a][i] && h[i] in h[..a];
    CoveredByPositions(h, d, 0, Index(h, c.before.value), rows);
  }

  lemma {:induction false} OlderCovers(h: seq<Signature>, c: Cursor, d: Cursor, limit: nat, rows: set<Signature>)
    requires Covered(h, c, rows) && c.head.Some?
    requires var got := Take(h[Index(h, c.before.value) + 1..], limit);
             && d.head == c.head && d.before == Some(h[Index(h, c.before.value) + |got|])
             && forall s | s in got :: s in rows
    ensures Covered(h, d, rows)
  {
    var b := Index(h, c.before.value);
    var got := Take(h[b + 1..], limit);
    forall i | Index(h, c.head.value) <= i <= b + |got| ensures h[i] in rows {
      if b < i {
        assert h[i] == got[i - b - 1];
        assert got[i - b - 1] in got;
      }
    }
    CoveredByPositions(h, d, Index(h, c.head.value), b + |got|, rows);
  }

  /** A fetch from a covered cursor leaves a cursor covered by the stored rows plus the batch. */
  lemma {:induction false} FetchKeepsCovered(h: seq<Signature>, c: Cursor, incremental: bool, limit: nat,
                                             listing: Listing, rows: set<Signature>)
    requires Covered(h, c, rows) && Fetched(h, c, incremental, limit, listing)
    ensures Covered(h, NextCursor(c, incremental, listing), rows + set s | s in listing.signatures)
  {
    var d := NextCursor(c, incremental, listing);
    var more := rows + set s | s in listing.signatures;
    NextInterval(h, c, incremental, limit, listing, rows);
    assert Covered(h, c, more);
    if c.head.None? {
      if h != [] { FirstFetchCovers(h, d, limit, more); }
    } else if incremental {
      IncrementalCovers(h, c, d, more);
    } else {
      OlderCovers(h, c, d, limit, more);
    }
  }

  lemma {:induction false} CoveredIsMonotone(h: seq<Signature>, g: seq<Signature>, c: Cursor, rows: set<Signature>,
                                             more: set<Signature>)
    requires Covered(h, c, rows) && Newer(h, g) && Distinct(g) && rows <= more
    ensures Covered(g, c, more)
  {
    if c.head.Some? {
      var d := |g| - |h|;
      PrependShifts(h, g, c.head.value);
      PrependShifts(h, g, c.before.value);
      forall i | Index(g, c.head.value) <= i <= Index(g, c.before.value) ensures g[i] in more {
        assert g[i] == g[d..][i - d];
      }
    }
  }

  /**
   `history_exhausted` stays true of the cursor in every fetch but one: an incremental fetch that
   inherits the flag of an empty backfill, finds no head to stop at, and is cut off by the limit.
   */
  lemma {:induction false} ExhaustedKeptIff(h: seq<Signature>, c: Cursor, incremental: bool, limit: nat,
                                            listing: Listing, rows: set<Signature>)
    requires Covered(h, c, rows) && Fetched(h, c, incremental, limit, listing) && ExhaustedIsTrue(h, c)
    ensures ExhaustedIsTrue(h, NextCursor(c, incremental, listing)) <==>
            !(incremental && c.head.None? && c.exhausted && limit < |h|)
  {
    NextInterval(h, c, incremental, limit, listing, rows);
    if c.head.None? {
      assert Segment(h, None, None) == h;
      assert limit < |h| ==> h[limit - 1] != h[|h| - 1];
    } else if !incremental {
      OlderExhausts(h, c, limit, listing);
    }
  }

  lemma {:induction false} OlderExhausts(h: seq<Signature>, c: Cursor, limit: nat, listing: Listing)
    requires Known(h, c.head) && c.before.Some? && Fetched(h, c, false, limit, listing)
    ensures listing.exhausted ==> Index(h, c.before.value) + |listing.signatures| == |h| - 1
  {
    assert Segment(h, c.before, None) == h[Index(h, c.before.value) + 1..];
  }

  /** New signatures never invalidate the claim once there is a head. */
  lemma {:induction false} ExhaustedSurvivesGrowth(h: seq<Signature>, g: seq<Signature>, c: Cursor)
    requires ExhaustedIsTrue(h, c) && Newer(h, g) && c.before.Some?
    ensures ExhaustedIsTrue(g, c)
  {
    if c.exhausted { assert g[|g| - 1] == g[|g| - |h|..][|h| - 1]; }
  }

  /** A fetch at a moment when the wallet's history has grown to `history`. */
  datatype Round = Round(history: seq<Signature>, incremental: bool, limit: nat, listing: Listing)

  ghost predicate Rounds(h: seq<Signature>, c: Cursor, rounds: seq<Round>)
    decreases |rounds|
  {
    rounds == [] || (
      var r := rounds[0];
      && Newer(h, r.history) && Distinct(r.history) && r.history != []
      && Fetched(r.history, c, r.incremental, r.limit, r.listing)
      && Rounds(r.history, NextCursor(c, r.incremental, r.listing), rounds[1..]))
  }

  function LastHistory(h: seq<Signature>, rounds: seq<Round>): seq<Signature> {
    if rounds == [] then h else rounds[|rounds| - 1].history
  }

  function LastCursor(c: Cursor, rounds: seq<Round>): Cursor
    decreases |rounds|
  {
    if rounds == [] then c else LastCursor(NextCursor(c, rounds[0].incremental, rounds[0].listing), rounds[1..])
  }

  /**
   Over any run of backfills and incremental fetches against a growing history that was not empty,
   starting from the empty cursor or any cursor with a head, the flag tells the truth at the end.
   */
  lemma {:induction false} ExhaustedOverRuns(h: seq<Signature>, c: Cursor, rounds: seq<Round>, rows: set<Signature>)
    requires Truthfully(h, c, rows) && Rounds(h, c, rounds)
    ensures ExhaustedIsTrue(LastHistory(h, rounds), LastCursor(c, rounds))
    decreases |rounds|
  {
    if rounds != [] {
      var r := rounds[0];
      RoundKeepsTruth(h, c, r, rows);
      var next, more := NextCursor(c, r.incremental, r.listing), rows + set s | s in r.listing.signatures;
      assert Rounds(r.history, next, rounds[1..]) && Truthfully(r.history, next, more);
      ExhaustedOverRuns(r.history, next, rounds[1..], more);
      assert LastCursor(c, rounds) == LastCursor(next, rounds[1..]);
      assert LastHistory(h, rounds) == LastHistory(r.history, rounds[1..]);
    }
  }

  ghost predicate Truthfully(h: seq<Signature>, c: Cursor, rows: set<Signature>) {
    Covered(h, c, rows) && ExhaustedIsTrue(h, c) && (c.exhausted ==> c.head.Some?)
  }

  lemma {:induction false} RoundKeepsTruth(h: seq<Signature>, c: Cursor, r: Round, rows: set<Signature>)
    requires Truthfully(h, c, rows) && Newer(h, r.history) && Distinct(r.history) && r.history != []
    requires Fetched(r.history, c, r.incremental, r.limit, r.listing)
    ensures Truthfully(r.history, NextCursor(c, r.incremental, r.listing), rows + set s | s in r.listing.signatures)
  {
    CoveredIsMonotone(h, r.history, c, rows, rows);
    if c.before.Some? { ExhaustedSurvivesGrowth(h, r.history, c); }
    ExhaustedKeptIff(r.history, c, r.incremental, r.limit, r.listing, rows);
    FetchKeepsCovered(r.history, c, r.incremental, r.limit, r.listing, rows);
    NextInterval(r.history, c, r.incremental, r.limit, r.listing, rows);
  }

  /** The failing family has members: a backfill of an empty wallet, then three signatures and a limit of two. */
  lemma {:induction false} ExhaustedCanBeFalse()
    ensures
      var empty := Listing([], true);
      var c := NextCursor(EMPTY, false, empty);
      var listing := Listing([3, 2], false);
      && Fetched([], EMPTY, false, 2, empty)
      && Fetched([3, 2, 1], c, true, 2, listing)
      && NextCursor(c, true, listing).exhausted
      && !ExhaustedIsTrue([3, 2, 1], NextCursor(c, true, listing))
  {
    assert Segment([3, 2, 1], None, None) == [3, 2, 1];
    assert [3, 2, 1][..2] == [3, 2];
  }

  // ---------------------------------------------------------------------------
  // Backfilling a fixed history to its end
  // ---------------------------------------------------------------------------

  /** What a backfill has still to bring: everything older than the cursor. */
  ghost function Older(h: seq<Signature>, c: Cursor): seq<Signature>
    requires Known(h, c.before)
  {
    Segment(h, c.before, None)
  }

  datatype Backfill = Backfill(limit: nat, listing: Listing)

  /** Successful backfills of a history that stays as it is. */
  ghost predicate Backfills(h: seq<Signature>, c: Cursor, runs: seq<Backfill>)
    decreases |runs|
  {
    runs != [] ==>
      && Fetched(h, c, false, runs[0].limit, runs[0].listing)
      && Backfills(h, NextCursor(c, false, runs[0].listing), runs[1..])
  }

  function CursorAfter(c: Cursor, runs: seq<Backfill>): Cursor
    decreases |runs|
  {
    if runs == [] then c else CursorAfter(NextCursor(c, false, runs[0].listing), runs[1..])
  }

  function Limits(runs: seq<Backfill>): nat { if runs == [] then 0 else runs[0].limit + Limits(runs[1..]) }

  function Brought(runs: seq<Backfill>): seq<Signature> {
    if runs == [] then [] else runs[0].listing.signatures + Brought(runs[1..])
  }

  /** One backfill takes its limit from what is left, and sets the flag exactly if less than that was left. */
  lemma {:induction false} BackfillTakes(h: seq<Signature>, c: Cursor, limit: nat, listing: Listing)
    requires Distinct(h) && Fetched(h, c, false, limit, listing)
    ensures var d := NextCursor(c, false, listing);
            && Known(h, d.head) && Known(h, d.before)
            && listing.signatures == Take(Older(h, c), limit)
            && Older(h, d) == Older(h, c)[|listing.signatures|..]
            && (d.exhausted <==> |Older(h, c)| < limit)
            && (c.head.Some? ==> d.head == c.head)
  {
    var left, got := Older(h, c), listing.signatures;
    SegmentDistinct(h, c.before, None);
    if got != [] {
      SegmentAfter(h, c.before, None, |got|);
      assert got[|got| - 1] == left[|got| - 1] && got[0] == left[0];
    }
  }

  lemma {:induction false} TakeTwice(s: seq<Signature>, n: nat, m: nat)
    ensures Take(s, n) + Take(s[|Take(s, n)|..], m) == Take(s, n + m)
  {
  }

  lemma {:induction false} StillLeft(s: seq<Signature>, n: nat, m: nat)
    requires 0 < m
    ensures |s[|Take(s, n)|..]| < m <==> |s| < n + m
  {
  }

  /**
   Repeated backfills of a fixed history, whatever their limits, bring what was left in order and without
   repeats. The flag is set at the end if and only if the limits add up to more than was left; nothing is
   left then, and the cursor's older end is the oldest signature.
   */
  lemma {:induction false} BackfillsExhaustIff(h: seq<Signature>, c: Cursor, runs: seq<Backfill>)
    requires Distinct(h) && runs != [] && Backfills(h, c, runs)
    ensures var d := CursorAfter(c, runs);
            && Known(h, d.before)
            && Brought(runs) == Take(Older(h, c), Limits(runs))
            && (d.exhausted <==> |Older(h, c)| < Limits(runs))
            && (d.exhausted ==> Older(h, d) == [] && (h != [] ==> d.before == Some(h[|h| - 1])))
    decreases |runs|
  {
    var first, rest := runs[0], runs[1..];
    var next := NextCursor(c, false, first.listing);
    BackfillTakes(h, c, first.limit, first.listing);
    if rest == [] {
      assert Brought(rest) == [] && Brought(runs) == first.listing.signatures;
      if next.exhausted && h != [] { NothingOlder(h, next); }
    } else {
      assert Fetched(h, next, false, rest[0].limit, rest[0].listing);
      BackfillsExhaustIff(h, next, rest);
      TakeTwice(Older(h, c), first.limit, Limits(rest));
      StillLeft(Older(h, c), first.limit, Limits(rest));
    }
  }

  lemma {:induction false} NothingOlder(h: seq<Signature>, c: Cursor)
    requires Distinct(h) && h != [] && Known(h, c.before) && Older(h, c) == []
    ensures c.before == Some(h[|h| - 1])
  {
  }

  /** With one limit throughout, the flag is set after one run more than the limit goes into what is left. */
  lemma {:induction false} BackfillsNeeded(h: seq<Signature>, c: Cursor, runs: seq<Backfill>, limit: nat)
    requires Distinct(h) && 0 < limit && Backfills(h, c, runs) && forall r | r in runs :: r.limit == limit
    requires Known(h, c.before) && |runs| == |Older(h, c)| / limit + 1
    ensures CursorAfter(c, runs).exhausted
    ensures forall n: nat | 0 < n < |runs| :: Backfills(h, c, runs[..n]) && !CursorAfter(c, runs[..n]).exhausted
  {
    var left := |Older(h, c)|;
    EnoughRuns(left, limit, |runs|);
    LimitsAre(runs, limit);
    BackfillsExhaustIff(h, c, runs);
    forall n: nat | 0 < n < |runs| ensures Backfills(h, c, runs[..n]) && !CursorAfter(c, runs[..n]).exhausted {
      BackfillsPrefix(h, c, runs, n);
      EnoughRuns(left, limit, n);
      LimitsAre(runs[..n], limit);
      BackfillsExhaustIff(h, c, runs[..n]);
    }
  }

  lemma {:induction false} EnoughRuns(left: nat, limit: nat, n: nat)
    requires 0 < limit
    ensures left < n * limit <==> left / limit < n
  {
    assert left == left / limit * limit + left % limit;
    if left / limit < n {
      assert (left / limit + 1) * limit <= n * limit;
    } else {
      assert n * limit <= left / limit * limit;
    }
  }

  lemma {:induction false} LimitsAre(runs: seq<Backfill>, limit: nat)
    requires forall r | r in runs :: r.limit == limit
    ensures Limits(runs) == |runs| * limit
  {
    if runs != [] {
      assert runs[0] in runs && forall r | r in runs[1..] :: r in runs;
      LimitsAre(runs[1..], limit);
      OneMore(|runs[1..]|, limit);
    }
  }

  lemma {:induction false} OneMore(n: nat, limit: nat)
    ensures (n + 1) * limit == limit + n * limit
  {
  }

  lemma {:induction false} BackfillsPrefix(h: seq<Signature>, c: Cursor, runs: seq<Backfill>, n: nat)
    requires Backfills(h, c, runs) && n <= |runs|
    ensures Backfills(h, c, runs[..n])
    decreases n
  {
    if n > 0 {
      assert runs[..n][1..] == runs[1..][..n - 1];
      BackfillsPrefix(h, NextCursor(c, false, runs[0].listing), runs[1..], n - 1);
    }
  }
}
