/**
 * The IMAP cursor engine: aligning `last_uid` with the `emails_since`
 * threshold, the forward-then-commit loop over new unseen UIDs, and the
 * reconnect supervisor with its backoff counter.
 *
 * The server is an oracle: a `Mailbox` snapshot for the open INBOX, the
 * UID list a SEARCH returns, and per-UID outcomes of the webhook forward
 * and of the cursor-store update.
 */
module ImapListener {
  import opened Wrappers
  import opened Batches
  import opened Backoff

  /**
   * What the open INBOX reports: its EXISTS count, its UIDNEXT (0 when the
   * server sends none) and the INTERNALDATE of each UID present (None when
   * a message carries no date). Dates are milliseconds since the epoch.
   */
  datatype Mailbox = Mailbox(messageCount: nat, uidNext: nat, internalDates: map<int, Option<int>>)

  /** A UID counts towards alignment when it exists and is dated at or after the threshold. */
  predicate Qualifies(mb: Mailbox, since: int, uid: int)
  {
    uid in mb.internalDates && mb.internalDates[uid].Some? && mb.internalDates[uid].value >= since
  }

  /** The least qualifying UID in [lo, hi]: the reference the batched scan is proved against. */
  function LeastQualifying(mb: Mailbox, since: int, lo: int, hi: int): Option<int>
    decreases hi - lo + 1
  {
    if lo > hi then None
    else if Qualifies(mb, since, lo) then Some(lo)
    else LeastQualifying(mb, since, lo + 1, hi)
  }

  /** The result is the least qualifying UID of [lo, hi], or None when none qualifies. */
  lemma {:induction false} LeastQualifyingSpec(mb: Mailbox, since: int, lo: int, hi: int)
    ensures var r := LeastQualifying(mb, since, lo, hi);
            && (r.Some? ==> lo <= r.value <= hi && Qualifies(mb, since, r.value))
            && (r.Some? ==> forall u :: lo <= u < r.value ==> !Qualifies(mb, since, u))
            && (r.None? ==> forall u :: lo <= u <= hi ==> !Qualifies(mb, since, u))
    decreases hi - lo + 1
  {
    if lo <= hi && !Qualifies(mb, since, lo) {
      LeastQualifyingSpec(mb, since, lo + 1, hi);
    }
  }

  /** A qualifying UID with no qualifying UID below it in the range is the one found. */
  lemma {:induction false} LeastQualifyingIs(mb: Mailbox, since: int, lo: int, hi: int, u: int)
    requires lo <= u <= hi && Qualifies(mb, since, u)
    requires forall v :: lo <= v < u ==> !Qualifies(mb, since, v)
    ensures LeastQualifying(mb, since, lo, hi) == Some(u)
    decreases u - lo
  {
    if lo < u {
      LeastQualifyingIs(mb, since, lo + 1, hi, u);
    }
  }

  /** Where the scan starts: the stored cursor when it is positive and not past maxUid, else 1. */
  function ScanStart(lastUid: int, maxUid: int): int
  {
    if 0 < lastUid <= maxUid then lastUid else 1
  }

  function Max(a: int, b: int): int { if a < b then b else a }

  /**
   * The cursor alignment computes: unchanged without a threshold, for an
   * empty mailbox or without a usable UIDNEXT; maxUid when no message
   * qualifies; otherwise raised (never lowered) to one below the first
   * qualifying UID found from the scan start, falling back to a scan from 1.
   */
  function AlignedLastUid(since: Option<int>, mb: Mailbox, lastUid: int): int
  {
    if since.None? || mb.messageCount == 0 || mb.uidNext <= 1 then lastUid
    else
      var maxUid := mb.uidNext - 1;
      var fromStart := LeastQualifying(mb, since.value, ScanStart(lastUid, maxUid), maxUid);
      var first := if fromStart.Some? then fromStart else LeastQualifying(mb, since.value, 1, maxUid);
      if first.None? then maxUid else Max(lastUid, first.value - 1)
  }

  /**
   * The candidates of one fetched range cursor:end and `Math.min` over them:
   * the smallest qualifying UID in the range, or None.
   */
  method SmallestCandidate(mb: Mailbox, since: int, lo: int, hi: int) returns (best: Option<int>)
    ensures best == LeastQualifying(mb, since, lo, hi)
  {
    best := None;
    var uid := lo;
    while uid <= hi
      invariant lo <= uid && (lo <= hi ==> uid <= hi + 1)
      invariant best.None? ==> forall u :: lo <= u < uid ==> !Qualifies(mb, since, u)
      invariant best.Some? ==> lo <= best.value < uid && best.value <= hi && Qualifies(mb, since, best.value)
      invariant best.Some? ==> forall u :: lo <= u < best.value ==> !Qualifies(mb, since, u)
    {
      if Qualifies(mb, since, uid) && (best.None? || uid < best.value) {
        best := Some(uid);
      }
      uid := uid + 1;
    }
    if best.Some? {
      LeastQualifyingIs(mb, since, lo, hi, best.value);
    } else {
      LeastQualifyingSpec(mb, since, lo, hi);
    }
  }

  /** A range without a qualifying UID can be skipped: the search resumes right after it. */
  lemma LeastQualifyingSkip(mb: Mailbox, since: int, lo: int, mid: int, hi: int)
    requires lo <= mid <= hi && LeastQualifying(mb, since, lo, mid).None?
    ensures LeastQualifying(mb, since, lo, hi) == LeastQualifying(mb, since, mid + 1, hi)
  {
    LeastQualifyingSpec(mb, since, lo, mid);
    LeastQualifyingSpec(mb, since, lo, hi);
    LeastQualifyingSpec(mb, since, mid + 1, hi);
    var later := LeastQualifying(mb, since, mid + 1, hi);
    if later.Some? {
      LeastQualifyingIs(mb, since, lo, hi, later.value);
    }
  }

  /**
   * What `scanFrom` finds from cursor on: the smallest qualifying UID of the
   * first 500-wide range that holds one.
   */
  function ScanFound(mb: Mailbox, since: int, cursor: int, maxUid: int): Option<int>
    decreases if cursor <= maxUid then maxUid - cursor + 1 else 0
  {
    if cursor > maxUid then None
    else
      var end := Min(cursor + AlignScanBatchSize - 1, maxUid);
      var here := LeastQualifying(mb, since, cursor, end);
      if here.Some? then here else ScanFound(mb, since, end + 1, maxUid)
  }

  /** The ranges `scanFrom` fetches from cursor on, up to and including the first one that holds a qualifying UID. */
  function ScanRanges(mb: Mailbox, since: int, cursor: int, maxUid: int): seq<Range>
    decreases if cursor <= maxUid then maxUid - cursor + 1 else 0
  {
    if cursor > maxUid then []
    else
      var end := Min(cursor + AlignScanBatchSize - 1, maxUid);
      [Range(cursor, end)] + if LeastQualifying(mb, since, cursor, end).Some? then [] else ScanRanges(mb, since, end + 1, maxUid)
  }

  /** Scanning range by range finds the least qualifying UID of the whole span. */
  lemma {:induction false} ScanFoundIsLeast(mb: Mailbox, since: int, cursor: int, maxUid: int)
    ensures ScanFound(mb, since, cursor, maxUid) == LeastQualifying(mb, since, cursor, maxUid)
    decreases if cursor <= maxUid then maxUid - cursor + 1 else 0
  {
    if cursor <= maxUid {
      var end := Min(cursor + AlignScanBatchSize - 1, maxUid);
      var here := LeastQualifying(mb, since, cursor, end);
      if here.Some? {
        LeastQualifyingSpec(mb, since, cursor, end);
        LeastQualifyingIs(mb, since, cursor, maxUid, here.value);
      } else if end < maxUid {
        ScanFoundIsLeast(mb, since, end + 1, maxUid);
        LeastQualifyingSkip(mb, since, cursor, end, maxUid);
      }
    }
  }

  /** The fetched ranges form a 500-wide walk from cursor. */
  lemma {:induction false} ScanRangesBatched(mb: Mailbox, since: int, cursor: int, maxUid: int)
    ensures Batched(ScanRanges(mb, since, cursor, maxUid), cursor, maxUid, AlignScanBatchSize)
    decreases if cursor <= maxUid then maxUid - cursor + 1 else 0
  {
    if cursor <= maxUid {
      var end := Min(cursor + AlignScanBatchSize - 1, maxUid);
      var r := Range(cursor, end);
      var rest := if LeastQualifying(mb, since, cursor, end).Some? then [] else ScanRanges(mb, since, end + 1, maxUid);
      assert ScanRanges(mb, since, cursor, maxUid) == [r] + rest;
      if rest != [] {
        ScanRangesBatched(mb, since, end + 1, maxUid);
      }
      BatchedCons(r, rest, cursor, maxUid, AlignScanBatchSize);
    }
  }

  /**
   * The walk covers the whole span when the scan finds nothing, and
   * otherwise ends with the range holding what it found.
   */
  lemma {:induction false} ScanRangesEnd(mb: Mailbox, since: int, cursor: int, maxUid: int)
    ensures var rs := ScanRanges(mb, since, cursor, maxUid);
            var found := ScanFound(mb, since, cursor, maxUid);
            && (found.None? ==> Complete(rs, cursor, maxUid))
            && (found.Some? ==> |rs| > 0 && InRange(rs[|rs| - 1], found.value))
    decreases if cursor <= maxUid then maxUid - cursor + 1 else 0
  {
    if cursor <= maxUid {
      var end := Min(cursor + AlignScanBatchSize - 1, maxUid);
      var here := LeastQualifying(mb, since, cursor, end);
      var rs := ScanRanges(mb, since, cursor, maxUid);
      if here.Some? {
        LeastQualifyingSpec(mb, since, cursor, end);
        assert rs == [Range(cursor, end)];
        assert ScanFound(mb, since, cursor, maxUid) == here;
      } else {
        var rest := ScanRanges(mb, since, end + 1, maxUid);
        assert rs == [Range(cursor, end)] + rest;
        assert ScanFound(mb, since, cursor, maxUid) == ScanFound(mb, since, end + 1, maxUid);
        if end < maxUid {
          ScanRangesEnd(mb, since, end + 1, maxUid);
          assert |rest| > 0;
          assert rs[|rs| - 1] == rest[|rest| - 1];
        } else {
          assert rest == [] && ScanFound(mb, since, end + 1, maxUid).None?;
        }
      }
    }
  }

  /**
   * `scanFrom`: walks 500-wide UID ranges upwards from startUid and returns
   * the smallest qualifying UID of the first range that holds one.
   */
  method ScanFrom(mb: Mailbox, since: int, maxUid: int, startUid: int) returns (found: Option<int>)
    ensures found == ScanFound(mb, since, startUid, maxUid) == LeastQualifying(mb, since, startUid, maxUid)
  {
    ScanFoundIsLeast(mb, since, startUid, maxUid);
    var cursor := startUid;
    while cursor <= maxUid
      invariant ScanFound(mb, since, startUid, maxUid) == ScanFound(mb, since, cursor, maxUid)
      decreases maxUid - cursor
    {
      var end := Min(cursor + AlignScanBatchSize - 1, maxUid);
      var best := SmallestCandidate(mb, since, cursor, end);
      if best.Some? {
        return best;
      }
      cursor := end + 1;
    }
    found := None;
  }

  /** Both scans of alignment: from the heuristic start, then from 1 if that found nothing. */
  method FindUidSince(mb: Mailbox, since: int, maxUid: int, start: int) returns (uidSince: Option<int>)
    ensures var fromStart := LeastQualifying(mb, since, start, maxUid);
            uidSince == if fromStart.Some? then fromStart else LeastQualifying(mb, since, 1, maxUid)
  {
    uidSince := ScanFrom(mb, since, maxUid, start);
    if uidSince.None? && start != 1 {
      uidSince := ScanFrom(mb, since, maxUid, 1);
    }
  }

  /** A message the loop skips because it predates the threshold. */
  predicate BeforeThreshold(since: Option<int>, date: Option<int>)
  {
    since.Some? && date.Some? && date.value < since.value
  }

  /** How a processing cycle ended: all candidates seen, stopped at a failed forward, or the commit threw. */
  datatype Stop = Drained | Halted(uid: int) | PersistThrew(uid: int)

  /** In-memory cursor, stored cursor, UIDs handed to the webhook in call order, and how the cycle ended. */
  datatype RunResult = RunResult(cursor: int, stored: int, calls: seq<int>, stop: Stop)

  /**
   * The forward-then-commit sequence over candidate UIDs, as a reference
   * definition: skip UIDs gone from the mailbox, not above the current
   * cursor, or dated before the threshold; stop at the first failed forward;
   * on success move the cursor, then persist it (a failed persist throws
   * after the in-memory cursor has moved).
   */
  function CommitRun(uids: seq<int>, cursor: int, stored: int, since: Option<int>,
                     dates: map<int, Option<int>>, sinkOk: int -> bool, storeOk: int -> bool): RunResult
    decreases |uids|
  {
    if uids == [] then RunResult(cursor, stored, [], Drained)
    else
      var u := uids[0];
      if u !in dates || u <= cursor || BeforeThreshold(since, dates[u]) then
        CommitRun(uids[1..], cursor, stored, since, dates, sinkOk, storeOk)
      else if !sinkOk(u) then RunResult(cursor, stored, [u], Halted(u))
      else if !storeOk(u) then RunResult(u, stored, [u], PersistThrew(u))
      else
        var rest := CommitRun(uids[1..], u, u, since, dates, sinkOk, storeOk);
        RunResult(rest.cursor, rest.stored, [u] + rest.calls, rest.stop)
  }

  /** `uids.filter(uid => uid > lastUid)` */
  function Above(uids: seq<int>, bound: int): (r: seq<int>)
    ensures forall u :: u in r <==> u in uids && u > bound
    ensures |r| <= |uids|
  {
    if uids == [] then []
    else (if uids[0] > bound then [uids[0]] else []) + Above(uids[1..], bound)
  }

  ghost predicate Ascending(s: seq<int>)
  {
    forall i, j :: 0 <= i < j < |s| ==> s[i] <= s[j]
  }

  ghost predicate StrictlyAscending(s: seq<int>)
  {
    forall i, j :: 0 <= i < j < |s| ==> s[i] < s[j]
  }

  function Insert(s: seq<int>, x: int): seq<int>
  {
    if s == [] || x <= s[0] then [x] + s else [s[0]] + Insert(s[1..], x)
  }

  /** Inserting adds exactly the one element. */
  lemma {:induction false} InsertPermutes(s: seq<int>, x: int)
    ensures multiset(Insert(s, x)) == multiset(s) + multiset{x}
  {
    if s != [] && x > s[0] {
      InsertPermutes(s[1..], x);
      assert s == [s[0]] + s[1..];
    }
  }

  /** The head after inserting is the new element or the old head. */
  lemma InsertHead(s: seq<int>, x: int)
    ensures |Insert(s, x)| > 0 && (Insert(s, x)[0] == x || (|s| > 0 && Insert(s, x)[0] == s[0]))
  {
  }

  /** Inserting into an ascending list keeps it ascending. */
  lemma {:induction false} InsertSorted(s: seq<int>, x: int)
    requires Ascending(s)
    ensures Ascending(Insert(s, x))
  {
    if s != [] && x > s[0] {
      var tail := Insert(s[1..], x);
      InsertSorted(s[1..], x);
      InsertHead(s[1..], x);
      var r := [s[0]] + tail;
      assert Insert(s, x) == r;
      forall i, j | 0 <= i < j < |r| ensures r[i] <= r[j] {
        assert r[j] == tail[j - 1];
        if i == 0 {
          assert s[0] <= tail[0] <= tail[j - 1];
        } else {
          assert r[i] == tail[i - 1];
        }
      }
    }
  }

  /** `validUids.sort((a, b) => a - b)`: the library sort, by its contract. */
  function SortAscending(s: seq<int>): (r: seq<int>)
    ensures Ascending(r)
    ensures multiset(r) == multiset(s)
  {
    if s == [] then []
    else
      assert s == s[..|s| - 1] + [s[|s| - 1]];
      InsertSorted(SortAscending(s[..|s| - 1]), s[|s| - 1]);
      InsertPermutes(SortAscending(s[..|s| - 1]), s[|s| - 1]);
      Insert(SortAscending(s[..|s| - 1]), s[|s| - 1])
  }

  class ImapAccount {
    /** `account.last_uid` as held in memory (a null column reads as 0). */
    var lastUid: int
    /** The value the cursor store holds for this account. */
    var storedLastUid: int
    /** `emails_since`, parsed; None when absent or unparsable. */
    const emailsSince: Option<int>

    constructor(lastUid: int, emailsSince: Option<int>)
      ensures this.lastUid == lastUid && storedLastUid == lastUid && this.emailsSince == emailsSince
    {
      this.lastUid := lastUid;
      this.storedLastUid := lastUid;
      this.emailsSince := emailsSince;
    }

    /** `updateLastUid` inside alignment: a failure is swallowed. */
    method PersistQuietly(value: int, persistOk: bool)
      modifies this`storedLastUid
      ensures storedLastUid == if persistOk then value else old(storedLastUid)
    {
      if persistOk {
        storedLastUid := value;
      }
    }

    /** `ensureAlignedLastUid` */
    method EnsureAligned(mb: Mailbox, persistOk: bool)
      modifies this
      ensures lastUid == AlignedLastUid(emailsSince, mb, old(lastUid))
      ensures storedLastUid == if persistOk && lastUid != old(lastUid) then lastUid else old(storedLastUid)
    {
      if emailsSince.None? {
        return;
      }
      var since := emailsSince.value;
      if mb.messageCount == 0 {
        return;
      }
      if mb.uidNext == 0 {
        return;
      }
      var maxUid := mb.uidNext - 1;
      if maxUid <= 0 {
        return;
      }
      var start := if lastUid > 0 then lastUid else 1;
      if start > maxUid {
        start := 1;
      }
      assert start == ScanStart(lastUid, maxUid);
      var uidSince := FindUidSince(mb, since, maxUid, start);
      LeastQualifyingSpec(mb, since, start, maxUid);
      LeastQualifyingSpec(mb, since, 1, maxUid);
      if uidSince.None? {
        var desiredLast := maxUid;
        if lastUid != desiredLast {
          lastUid := desiredLast;
          PersistQuietly(desiredLast, persistOk);
        }
        return;
      }
      var desiredLastUid := Max(0, uidSince.value - 1);
      if lastUid < desiredLastUid {
        lastUid := desiredLastUid;
        PersistQuietly(desiredLastUid, persistOk);
      }
    }

    /** The `for await` loop of `processNewUnseen` over the fetched candidates. */
    method CommitUnseen(uids: seq<int>, dates: map<int, Option<int>>, sinkOk: int -> bool, storeOk: int -> bool)
      returns (stop: Stop, forwarded: seq<int>)
      modifies this
      ensures var run := CommitRun(uids, old(lastUid), old(storedLastUid), emailsSince, dates, sinkOk, storeOk);
              lastUid == run.cursor && storedLastUid == run.stored && forwarded == run.calls && stop == run.stop
    {
      ghost var target := CommitRun(uids, lastUid, storedLastUid, emailsSince, dates, sinkOk, storeOk);
      forwarded := [];
      var i := 0;
      while i < |uids|
        invariant 0 <= i <= |uids|
        invariant var rest := CommitRun(uids[i..], lastUid, storedLastUid, emailsSince, dates, sinkOk, storeOk);
                  target == RunResult(rest.cursor, rest.stored, forwarded + rest.calls, rest.stop)
      {
        var uid := uids[i];
        assert uids[i..][1..] == uids[i + 1..];
        if uid !in dates || uid <= lastUid {
          i := i + 1;
          continue;
        }
        if BeforeThreshold(emailsSince, dates[uid]) {
          i := i + 1;
          continue;
        }
        var ok := sinkOk(uid);
        forwarded := forwarded + [uid];
        if !ok {
          stop := Halted(uid);
          return;
        }
        lastUid := uid;
        if !storeOk(uid) {
          stop := PersistThrew(uid);
          return;
        }
        storedLastUid := uid;
        i := i + 1;
      }
      stop := Drained;
    }

    /** `processNewUnseen`: align, take the unseen UIDs above the cursor in ascending order, commit. */
    method ProcessNewUnseen(mb: Mailbox, alignPersistOk: bool, searchResult: seq<int>,
                            sinkOk: int -> bool, storeOk: int -> bool)
      returns (stop: Stop, forwarded: seq<int>)
      modifies this
      ensures RunResult(lastUid, storedLastUid, forwarded, stop)
              == UnseenRun(emailsSince, old(lastUid), old(storedLastUid), Wake(mb, alignPersistOk, searchResult, sinkOk, storeOk))
    {
      EnsureAligned(mb, alignPersistOk);
      var cursor := lastUid;
      var validUids := Above(searchResult, cursor);
      if |validUids| == 0 {
        return Drained, [];
      }
      var sorted := SortAscending(validUids);
      stop, forwarded := CommitUnseen(sorted, mb.internalDates, sinkOk, storeOk);
    }
  }

  // ---------------------------------------------------------------------
  // Properties of alignment

  /**
   * Alignment never skips a message that meets the threshold: every UID it
   * moves the cursor past is missing, undated or dated before `since`.
   */
  lemma AlignSkipsOnlyPreThresholdMail(since: int, mb: Mailbox, lastUid: int, uid: int)
    requires 1 <= uid && lastUid < uid <= AlignedLastUid(Some(since), mb, lastUid)
    ensures !Qualifies(mb, since, uid)
  {
    var maxUid := mb.uidNext - 1;
    var start := ScanStart(lastUid, maxUid);
    var fromStart := LeastQualifying(mb, since, start, maxUid);
    LeastQualifyingSpec(mb, since, start, maxUid);
    LeastQualifyingSpec(mb, since, 1, maxUid);
    if fromStart.Some? && start == lastUid {
      assert start <= uid < fromStart.value;
    }
  }

  /**
   * Alignment lowers the cursor only when no message qualifies and the
   * stored cursor lies beyond the mailbox's highest UID; it then becomes
   * maxUid.
   */
  lemma AlignLowersOnlyPastMaxUid(since: int, mb: Mailbox, lastUid: int)
    requires AlignedLastUid(Some(since), mb, lastUid) < lastUid
    ensures mb.messageCount > 0 && mb.uidNext > 1
    ensures lastUid > mb.uidNext - 1 && AlignedLastUid(Some(since), mb, lastUid) == mb.uidNext - 1
    ensures forall u :: 1 <= u < mb.uidNext ==> !Qualifies(mb, since, u)
  {
    var maxUid := mb.uidNext - 1;
    var start := ScanStart(lastUid, maxUid);
    var fromStart := LeastQualifying(mb, since, start, maxUid);
    LeastQualifyingSpec(mb, since, start, maxUid);
    if fromStart.None? {
      var all := LeastQualifying(mb, since, 1, maxUid);
      LeastQualifyingSpec(mb, since, 1, maxUid);
      assert all.None?;
    }
  }

  /** Running alignment twice with no new mail gives the cursor the first run gave. */
  lemma AlignIdempotent(since: Option<int>, mb: Mailbox, lastUid: int)
    ensures AlignedLastUid(since, mb, AlignedLastUid(since, mb, lastUid)) == AlignedLastUid(since, mb, lastUid)
  {
    if since.Some? && mb.messageCount > 0 && mb.uidNext > 1 {
      var s := since.value;
      var maxUid := mb.uidNext - 1;
      var first := LeastQualifying(mb, s, 1, maxUid);
      var l1 := AlignedLastUid(since, mb, lastUid);
      var start1 := ScanStart(lastUid, maxUid);
      var fromStart1 := LeastQualifying(mb, s, start1, maxUid);
      LeastQualifyingSpec(mb, s, start1, maxUid);
      LeastQualifyingSpec(mb, s, 1, maxUid);
      if fromStart1.Some? {
        var u := fromStart1.value;
        if l1 != lastUid {
          // the cursor was raised to u - 1, from which the scan finds u again
          assert l1 == u - 1;
          if u - 1 >= 1 {
            LeastQualifyingIs(mb, s, u - 1, maxUid, u);
          } else {
            LeastQualifyingIs(mb, s, 1, maxUid, u);
          }
        }
      } else if first.Some? {
        assert l1 == lastUid;
      } else {
        assert l1 == maxUid;
        assert LeastQualifying(mb, s, ScanStart(maxUid, maxUid), maxUid).None?;
      }
    }
  }

  /**
   * With a threshold between the dates of UID 50 and UID 80 and no stored
   * cursor, alignment resolves the cursor to 79: UID 80 is delivered, UID 50
   * never is.
   */
  lemma AlignExample()
    ensures AlignedLastUid(Some(20), Mailbox(2, 81, map[50 := Some(10), 80 := Some(30)]), 0) == 79
  {
    var mb := Mailbox(2, 81, map[50 := Some(10), 80 := Some(30)]);
    LeastQualifyingIs(mb, 20, 1, 80, 80);
  }

  // ---------------------------------------------------------------------
  // Alignment as the source's fetch reads its ranges

  /**
   * The UIDs present in ascending order: the message with sequence number
   * s (counting from 1) has UID uids[s - 1].
   */
  ghost predicate Listing(mb: Mailbox, uids: seq<int>)
  {
    && |uids| == mb.messageCount
    && (forall i, j :: 0 <= i < j < |uids| ==> uids[i] < uids[j])
    && (forall u :: u in mb.internalDates <==> u in uids)
  }

  /**
   * One fetched range cursor:end read as sequence numbers, as imapflow reads
   * a range fetched without the `uid` option: the first qualifying UID at
   * positions lo..hi. Positions past the last message fetch nothing. UIDs
   * ascend with positions, so the first candidate is also `Math.min` of them.
   */
  function LeastAtPositions(mb: Mailbox, uids: seq<int>, since: int, lo: int, hi: int): (r: Option<int>)
    ensures r.Some? ==> r.value in uids && Qualifies(mb, since, r.value)
    decreases hi - lo + 1
  {
    if lo > hi then None
    else if 1 <= lo <= |uids| && Qualifies(mb, since, uids[lo - 1]) then Some(uids[lo - 1])
    else LeastAtPositions(mb, uids, since, lo + 1, hi)
  }

  /** `scanFrom` as written: the 500-wide ranges of `ScanFound`, each read as sequence numbers. */
  function ScanAtPositions(mb: Mailbox, uids: seq<int>, since: int, cursor: int, maxUid: int): (r: Option<int>)
    ensures r.Some? ==> r.value in uids && Qualifies(mb, since, r.value)
    decreases if cursor <= maxUid then maxUid - cursor + 1 else 0
  {
    if cursor > maxUid then None
    else
      var end := Min(cursor + AlignScanBatchSize - 1, maxUid);
      var here := LeastAtPositions(mb, uids, since, cursor, end);
      if here.Some? then here else ScanAtPositions(mb, uids, since, end + 1, maxUid)
  }

  /** `ensureAlignedLastUid` as written: `AlignedLastUid` with both scans read as sequence numbers. */
  function AlignedLastUidAsWritten(since: Option<int>, mb: Mailbox, uids: seq<int>, lastUid: int): int
  {
    if since.None? || mb.messageCount == 0 || mb.uidNext <= 1 then lastUid
    else
      var maxUid := mb.uidNext - 1;
      var fromStart := ScanAtPositions(mb, uids, since.value, ScanStart(lastUid, maxUid), maxUid);
      var first := if fromStart.Some? then fromStart else ScanAtPositions(mb, uids, since.value, 1, maxUid);
      if first.None? then maxUid else Max(lastUid, first.value - 1)
  }

  /** With nothing expunged, UID s is the message with sequence number s. */
  ghost predicate NothingExpunged(mb: Mailbox, uids: seq<int>)
  {
    Listing(mb, uids) && forall i :: 0 <= i < |uids| ==> uids[i] == i + 1
  }

  /** With nothing expunged, a range read as sequence numbers holds the same candidates as read as UIDs. */
  lemma {:induction false} PositionsAreUids(mb: Mailbox, uids: seq<int>, since: int, lo: int, hi: int)
    requires NothingExpunged(mb, uids) && 1 <= lo
    ensures LeastAtPositions(mb, uids, since, lo, hi) == LeastQualifying(mb, since, lo, hi)
    decreases hi - lo + 1
  {
    if lo <= hi {
      if lo <= |uids| {
        assert uids[lo - 1] == lo;
      } else {
        assert lo !in uids;
      }
      PositionsAreUids(mb, uids, since, lo + 1, hi);
    }
  }

  /** With nothing expunged, both readings of the batched scan find the same UID. */
  lemma {:induction false} ScanReadingsAgree(mb: Mailbox, uids: seq<int>, since: int, cursor: int, maxUid: int)
    requires NothingExpunged(mb, uids) && 1 <= cursor
    ensures ScanAtPositions(mb, uids, since, cursor, maxUid) == ScanFound(mb, since, cursor, maxUid)
    decreases if cursor <= maxUid then maxUid - cursor + 1 else 0
  {
    if cursor <= maxUid {
      var end := Min(cursor + AlignScanBatchSize - 1, maxUid);
      PositionsAreUids(mb, uids, since, cursor, end);
      ScanReadingsAgree(mb, uids, since, end + 1, maxUid);
    }
  }

  /** So the source's alignment and the modelled one agree on a mailbox nothing was expunged from. */
  lemma AlignReadingsAgree(since: Option<int>, mb: Mailbox, uids: seq<int>, lastUid: int)
    requires NothingExpunged(mb, uids)
    ensures AlignedLastUidAsWritten(since, mb, uids, lastUid) == AlignedLastUid(since, mb, lastUid)
  {
    if since.Some? && mb.messageCount != 0 && mb.uidNext > 1 {
      var maxUid := mb.uidNext - 1;
      var start := ScanStart(lastUid, maxUid);
      ScanReadingsAgree(mb, uids, since.value, start, maxUid);
      ScanFoundIsLeast(mb, since.value, start, maxUid);
      ScanReadingsAgree(mb, uids, since.value, 1, maxUid);
      ScanFoundIsLeast(mb, since.value, 1, maxUid);
    }
  }

  /** UIDs lo to hi, all dated 0. */
  function DatedZero(lo: int, hi: int): (m: map<int, Option<int>>)
    ensures forall u :: u in m <==> lo <= u <= hi
    ensures forall u :: u in m ==> m[u] == Some(0)
    decreases hi - lo + 1
  {
    if lo > hi then map[] else DatedZero(lo + 1, hi)[lo := Some(0)]
  }

  /** UIDs 1 to 10 expunged; UIDs 11 to 530 present (520 messages), all dated 0. */
  function ExpungedMailbox(): Mailbox
  {
    Mailbox(520, 531, DatedZero(11, 530))
  }

  function ExpungedListing(): seq<int>
  {
    seq(520, i => 11 + i)
  }

  /**
   * Read as sequence numbers, the scan from a cursor of 12 fetches 12:511,
   * which lies within the 520 messages, starts at the twelfth message, UID
   * 22, and moves the cursor to 21: UIDs 13 to 21 qualify but are passed
   * over and never forwarded. Read as UIDs, the cursor stays at 12, as
   * `AlignSkipsOnlyPreThresholdMail` promises.
   */
  lemma SequenceReadingSkipsMail()
    ensures Listing(ExpungedMailbox(), ExpungedListing())
    ensures 12 + AlignScanBatchSize - 1 <= ExpungedMailbox().messageCount < ExpungedMailbox().uidNext - 1
    ensures AlignedLastUidAsWritten(Some(0), ExpungedMailbox(), ExpungedListing(), 12) == 21
    ensures Qualifies(ExpungedMailbox(), 0, 13) && 12 < 13 <= 21
    ensures AlignedLastUid(Some(0), ExpungedMailbox(), 12) == 12
  {
    var mb, uids := ExpungedMailbox(), ExpungedListing();
    forall u
      ensures u in mb.internalDates <==> u in uids
    {
      if u in uids {
        var i :| 0 <= i < |uids| && uids[i] == u;
      }
      if 11 <= u <= 530 {
        assert uids[u - 11] == u;
      }
    }
    assert LeastAtPositions(mb, uids, 0, 12, 511) == Some(22);
    assert LeastQualifying(mb, 0, 12, 511) == Some(12);
  }

  // ---------------------------------------------------------------------
  // Properties of the commit loop

  /**
   * UIDs are handed to the webhook in strictly ascending order, all above
   * the cursor the loop started from, whatever order the candidates came in.
   */
  lemma {:induction false} CommitCallsAscend(uids: seq<int>, cursor: int, stored: int, since: Option<int>,
                                             dates: map<int, Option<int>>, sinkOk: int -> bool, storeOk: int -> bool)
    ensures var r := CommitRun(uids, cursor, stored, since, dates, sinkOk, storeOk);
            StrictlyAscending(r.calls) && forall k :: 0 <= k < |r.calls| ==> r.calls[k] > cursor
    decreases |uids|
  {
    if uids != [] {
      var u := uids[0];
      if u !in dates || u <= cursor || BeforeThreshold(since, dates[u]) {
        CommitCallsAscend(uids[1..], cursor, stored, since, dates, sinkOk, storeOk);
      } else if sinkOk(u) && storeOk(u) {
        CommitCallsAscend(uids[1..], u, u, since, dates, sinkOk, storeOk);
      }
    }
  }

  /** No message dated before the threshold is ever handed to the webhook. */
  lemma {:induction false} CommitRespectsThreshold(uids: seq<int>, cursor: int, stored: int, since: Option<int>,
                                                   dates: map<int, Option<int>>, sinkOk: int -> bool, storeOk: int -> bool)
    ensures var r := CommitRun(uids, cursor, stored, since, dates, sinkOk, storeOk);
            forall u :: u in r.calls ==> u in uids && u in dates && !BeforeThreshold(since, dates[u])
    decreases |uids|
  {
    if uids != [] {
      var u := uids[0];
      if u !in dates || u <= cursor || BeforeThreshold(since, dates[u]) {
        CommitRespectsThreshold(uids[1..], cursor, stored, since, dates, sinkOk, storeOk);
      } else if sinkOk(u) && storeOk(u) {
        CommitRespectsThreshold(uids[1..], u, u, since, dates, sinkOk, storeOk);
      }
    }
  }

  /**
   * The cursor ends at the last UID whose forward succeeded (or where it
   * started): a failed forward is the last call and leaves the cursor
   * behind it; otherwise the cursor is the last UID handed over.
   */
  lemma {:induction false} CommitCursorIsLastSuccess(uids: seq<int>, cursor: int, stored: int, since: Option<int>,
                                                     dates: map<int, Option<int>>, sinkOk: int -> bool, storeOk: int -> bool)
    ensures var r := CommitRun(uids, cursor, stored, since, dates, sinkOk, storeOk);
            && (r.stop.Halted? ==> |r.calls| > 0 && r.calls[|r.calls| - 1] == r.stop.uid && !sinkOk(r.stop.uid)
                                   && r.cursor == (if |r.calls| == 1 then cursor else r.calls[|r.calls| - 2]))
            && (!r.stop.Halted? ==> r.cursor == (if r.calls == [] then cursor else r.calls[|r.calls| - 1]))
            && (r.stop.PersistThrew? ==> r.cursor == r.stop.uid)
    decreases |uids|
  {
    if uids != [] {
      var u := uids[0];
      if u !in dates || u <= cursor || BeforeThreshold(since, dates[u]) {
        CommitCursorIsLastSuccess(uids[1..], cursor, stored, since, dates, sinkOk, storeOk);
      } else if sinkOk(u) && storeOk(u) {
        CommitCursorIsLastSuccess(uids[1..], u, u, since, dates, sinkOk, storeOk);
      }
    }
  }

  /**
   * No gap: when the candidates arrive in ascending order, every eligible
   * candidate at or below the final cursor was handed to the webhook.
   */
  lemma {:induction false} CommitLeavesNoGap(uids: seq<int>, cursor: int, stored: int, since: Option<int>,
                                             dates: map<int, Option<int>>, sinkOk: int -> bool, storeOk: int -> bool, u: int)
    requires Ascending(uids)
    requires u in uids && u in dates && !BeforeThreshold(since, dates[u])
    requires cursor < u <= CommitRun(uids, cursor, stored, since, dates, sinkOk, storeOk).cursor
    ensures u in CommitRun(uids, cursor, stored, since, dates, sinkOk, storeOk).calls
    decreases |uids|
  {
    var v := uids[0];
    var r := CommitRun(uids, cursor, stored, since, dates, sinkOk, storeOk);
    assert Ascending(uids[1..]);
    if v !in dates || v <= cursor || BeforeThreshold(since, dates[v]) {
      if u == v {
        assert false;
      }
      CommitLeavesNoGap(uids[1..], cursor, stored, since, dates, sinkOk, storeOk, u);
    } else if !sinkOk(v) {
      assert false;
    } else if !storeOk(v) {
      assert u == v;
    } else if u != v {
      assert u in uids[1..];
      CommitLeavesNoGap(uids[1..], v, v, since, dates, sinkOk, storeOk, u);
    }
  }

  /**
   * The store keeps pace with the in-memory cursor except when a commit
   * throws: then memory is ahead of the store, and a restart re-delivers.
   */
  lemma {:induction false} CommitStoreLagsOnlyOnThrow(uids: seq<int>, cursor: int, since: Option<int>,
                                                      dates: map<int, Option<int>>, sinkOk: int -> bool, storeOk: int -> bool)
    ensures var r := CommitRun(uids, cursor, cursor, since, dates, sinkOk, storeOk);
            (r.stored == r.cursor <==> !r.stop.PersistThrew?) && r.stored <= r.cursor
    decreases |uids|
  {
    if uids != [] {
      var u := uids[0];
      if u !in dates || u <= cursor || BeforeThreshold(since, dates[u]) {
        CommitStoreLagsOnlyOnThrow(uids[1..], cursor, since, dates, sinkOk, storeOk);
      } else if sinkOk(u) && storeOk(u) {
        CommitStoreLagsOnlyOnThrow(uids[1..], u, since, dates, sinkOk, storeOk);
      }
    }
  }

  /**
   * Cursor 100, unseen 101, 102, 103, the webhook refusing 103: the cursor
   * ends at 102 and 103 is the last call, to be retried next cycle.
   */
  lemma CommitExample()
    ensures var dates := map[101 := Some(0), 102 := Some(0), 103 := Some(0)];
            CommitRun([101, 102, 103], 100, 100, None, dates, (u: int) => u != 103, (u: int) => true)
              == RunResult(102, 102, [101, 102, 103], Halted(103))
  {
  }

  // ---------------------------------------------------------------------
  // The reconnect supervisor

  /** One wake of a connected session: the inputs of one `processNewUnseen` call. */
  datatype Wake = Wake(mb: Mailbox, alignPersistOk: bool, searchResult: seq<int>,
                       sinkOk: int -> bool, storeOk: int -> bool)

  /**
   * One pass of the reconnect loop: whether `connect` succeeded and, if so,
   * the wakes the session serves before a transport error ends it.
   */
  datatype Session = Session(connects: bool, wakes: seq<Wake>)

  function ConnectFlags(sessions: seq<Session>): (r: seq<bool>)
    ensures |r| == |sessions|
    ensures forall i :: 0 <= i < |sessions| ==> r[i] == sessions[i].connects
  {
    if sessions == [] then [] else [sessions[0].connects] + ConnectFlags(sessions[1..])
  }

  /**
   * Sleeps of the reconnect loop. The delay is computed from `attempt` at
   * the top of each pass, before connecting; a successful connect resets
   * `attempt` to 0 and the error that ends every session increments it.
   */
  function ImapSleeps(attempt: nat, connected: seq<bool>): (r: seq<nat>)
    ensures |r| == |connected|
    decreases |connected|
  {
    if connected == [] then []
    else [ReconnectDelay(attempt)] + ImapSleeps((if connected[0] then 0 else attempt) + 1, connected[1..])
  }

  /** Consecutive failed connects from attempt a sleep ReconnectDelay(a), ReconnectDelay(a + 1), ... */
  lemma {:induction false} ImapFailuresBackOff(attempt: nat, connected: seq<bool>, i: nat)
    requires i < |connected|
    requires forall k :: 0 <= k <= i ==> !connected[k]
    ensures ImapSleeps(attempt, connected)[i] == ReconnectDelay(attempt + i)
    decreases i
  {
    if i > 0 {
      ImapFailuresBackOff(attempt + 1, connected[1..], i - 1);
    }
  }

  /** The pass after a session that connected always sleeps ReconnectDelay(1), i.e. 10 s. */
  lemma {:induction false} ImapSleepAfterSession(attempt: nat, connected: seq<bool>, i: nat)
    requires i + 1 < |connected| && connected[i]
    ensures ImapSleeps(attempt, connected)[i + 1] == ReconnectDelay(1)
    decreases i
  {
    if i > 0 {
      ImapSleepAfterSession((if connected[0] then 0 else attempt) + 1, connected[1..], i - 1);
    }
  }

  /**
   * Four failed connects, then a session that connects and later fails,
   * then one more failure: the session's own sleep still uses the attempt
   * counted before it connected (60 s).
   */
  lemma ImapSleepsExample()
    ensures ImapSleeps(0, [false, false, false, false, true, false]) == [5000, 10000, 20000, 40000, 60000, 10000]
  {
    FirstFiveDelays();
    assert ImapSleeps(1, [false]) == [10000];
    assert ImapSleeps(4, [true, false]) == [60000, 10000];
    assert ImapSleeps(3, [false, true, false]) == [40000, 60000, 10000];
    assert ImapSleeps(2, [false, false, true, false]) == [20000, 40000, 60000, 10000];
    assert ImapSleeps(1, [false, false, false, true, false]) == [10000, 20000, 40000, 60000, 10000];
  }

  /** One `processNewUnseen` call as a reference: align, keep the search results above the aligned cursor, sort, commit. */
  function UnseenRun(since: Option<int>, lastUid: int, stored: int, w: Wake): RunResult
  {
    var aligned := AlignedLastUid(since, w.mb, lastUid);
    var alignedStored := if w.alignPersistOk && aligned != lastUid then aligned else stored;
    CommitRun(SortAscending(Above(w.searchResult, aligned)), aligned, alignedStored, since, w.mb.internalDates, w.sinkOk, w.storeOk)
  }

  /**
   * The reference definition of one connected session: one `processNewUnseen`
   * per wake, each from the cursor the previous one left, until a store
   * update throws (the error ends the session) or the wakes run out. A
   * refused forward only ends its own wake.
   */
  function SessionRun(since: Option<int>, lastUid: int, stored: int, wakes: seq<Wake>): RunResult
    decreases |wakes|
  {
    if wakes == [] then RunResult(lastUid, stored, [], Drained)
    else
      var r := UnseenRun(since, lastUid, stored, wakes[0]);
      if r.stop.PersistThrew? then r
      else
        var rest := SessionRun(since, r.cursor, r.stored, wakes[1..]);
        RunResult(rest.cursor, rest.stored, r.calls + rest.calls, rest.stop)
  }

  /** A session runs its first wake, then the rest from where that left off unless it threw. */
  lemma SessionRunFirst(since: Option<int>, lastUid: int, stored: int, wakes: seq<Wake>)
    requires wakes != []
    ensures var r := UnseenRun(since, lastUid, stored, wakes[0]);
            var rest := SessionRun(since, r.cursor, r.stored, wakes[1..]);
            SessionRun(since, lastUid, stored, wakes)
            == if r.stop.PersistThrew? then r else RunResult(rest.cursor, rest.stored, r.calls + rest.calls, rest.stop)
  {
  }

  /** A connected session: the startup cycle, then one cycle per wake, until a commit throws or the wakes run out. */
  method RunSession(account: ImapAccount, wakes: seq<Wake>) returns (forwarded: seq<int>)
    modifies account
    ensures var s := SessionRun(account.emailsSince, old(account.lastUid), old(account.storedLastUid), wakes);
            account.lastUid == s.cursor && account.storedLastUid == s.stored && forwarded == s.calls
  {
    var since := account.emailsSince;
    ghost var target := SessionRun(since, account.lastUid, account.storedLastUid, wakes);
    forwarded := [];
    var i := 0;
    assert wakes[i..] == wakes;
    while i < |wakes|
      invariant 0 <= i <= |wakes|
      invariant target == After(forwarded, SessionRun(since, account.lastUid, account.storedLastUid, wakes[i..]))
    {
      var w := wakes[i];
      assert wakes[i..][0] == w && wakes[i..][1..] == wakes[i + 1..];
      SessionRunFirst(since, account.lastUid, account.storedLastUid, wakes[i..]);
      ghost var r := UnseenRun(since, account.lastUid, account.storedLastUid, w);
      assert w == Wake(w.mb, w.alignPersistOk, w.searchResult, w.sinkOk, w.storeOk);
      var stop, calls := account.ProcessNewUnseen(w.mb, w.alignPersistOk, w.searchResult, w.sinkOk, w.storeOk);
      ghost var before := forwarded;
      forwarded := forwarded + calls;
      if stop.PersistThrew? {
        return;
      }
      ghost var rest := SessionRun(since, account.lastUid, account.storedLastUid, wakes[i + 1..]);
      Associative(before, calls, rest.calls);
      i := i + 1;
    }
    assert forwarded + [] == forwarded;
  }

  /** A result whose calls come after the UIDs already forwarded. */
  function After(earlier: seq<int>, r: RunResult): (a: RunResult)
    ensures a.cursor == r.cursor && a.stored == r.stored && a.stop == r.stop && a.calls == earlier + r.calls
  {
    RunResult(r.cursor, r.stored, earlier + r.calls, r.stop)
  }


  /**
   * With the alignment's store updates succeeding, store and memory agree
   * at the end of a session unless a commit's store update threw; then
   * memory is ahead, so a reconnect re-delivers from the store's value.
   */
  lemma {:induction false} SessionStoreLagsOnlyOnThrow(since: Option<int>, lastUid: int, wakes: seq<Wake>)
    requires forall k :: 0 <= k < |wakes| ==> wakes[k].alignPersistOk
    ensures var s := SessionRun(since, lastUid, lastUid, wakes);
            (s.stored == s.cursor <==> !s.stop.PersistThrew?) && s.stored <= s.cursor
    decreases |wakes|
  {
    if wakes != [] {
      var w := wakes[0];
      var aligned := AlignedLastUid(since, w.mb, lastUid);
      var uids := SortAscending(Above(w.searchResult, aligned));
      CommitStoreLagsOnlyOnThrow(uids, aligned, since, w.mb.internalDates, w.sinkOk, w.storeOk);
      var r := UnseenRun(since, lastUid, lastUid, w);
      assert r == CommitRun(uids, aligned, aligned, since, w.mb.internalDates, w.sinkOk, w.storeOk);
      if !r.stop.PersistThrew? {
        assert forall k :: 0 <= k < |wakes| - 1 ==> wakes[1..][k] == wakes[k + 1];
        SessionStoreLagsOnlyOnThrow(since, r.cursor, wakes[1..]);
      }
    }
  }

  /** Cursor, stored cursor and forwarded UIDs after a run of passes of the reconnect loop. */
  datatype ListenResult = ListenResult(cursor: int, stored: int, calls: seq<int>)

  /** The reference run of the reconnect loop: a failed connect changes nothing, a connected pass runs a session. */
  function ListenRun(since: Option<int>, lastUid: int, stored: int, sessions: seq<Session>): ListenResult
    decreases |sessions|
  {
    if sessions == [] then ListenResult(lastUid, stored, [])
    else
      var first := if sessions[0].connects then SessionRun(since, lastUid, stored, sessions[0].wakes)
                   else RunResult(lastUid, stored, [], Drained);
      var rest := ListenRun(since, first.cursor, first.stored, sessions[1..]);
      ListenResult(rest.cursor, rest.stored, first.calls + rest.calls)
  }

  /**
   * `listenToInbox` over a finite run of passes: the sleeps it takes and the
   * UIDs it forwards. Without a username or secret (`hasCredentials` false)
   * it returns at once.
   */
  method ListenToInbox(account: ImapAccount, hasCredentials: bool, sessions: seq<Session>)
    returns (sleeps: seq<nat>, forwarded: seq<int>)
    modifies account
    ensures !hasCredentials ==> sleeps == [] && forwarded == []
    ensures !hasCredentials ==> account.lastUid == old(account.lastUid) && account.storedLastUid == old(account.storedLastUid)
    ensures hasCredentials ==> sleeps == ImapSleeps(0, ConnectFlags(sessions))
    ensures hasCredentials ==> var l := ListenRun(account.emailsSince, old(account.lastUid), old(account.storedLastUid), sessions);
                               account.lastUid == l.cursor && account.storedLastUid == l.stored && forwarded == l.calls
  {
    var attempt: nat := 0;
    sleeps := [];
    forwarded := [];
    if !hasCredentials {
      return;
    }
    var since := account.emailsSince;
    ghost var target := ListenRun(since, account.lastUid, account.storedLastUid, sessions);
    var i := 0;
    assert sessions[i..] == sessions;
    while i < |sessions|
      invariant 0 <= i <= |sessions|
      invariant sleeps + ImapSleeps(attempt, ConnectFlags(sessions)[i..]) == ImapSleeps(0, ConnectFlags(sessions))
      invariant target == Behind(forwarded, ListenRun(since, account.lastUid, account.storedLastUid, sessions[i..]))
    {
      ImapSleepsStep(sleeps, attempt, sessions, i);
      ghost var slept, next := sleeps + [ReconnectDelay(attempt)], (if sessions[i].connects then 0 else attempt) + 1;
      ghost var cursor, stored := account.lastUid, account.storedLastUid;
      ghost var first := if sessions[i].connects then SessionRun(since, cursor, stored, sessions[i].wakes)
                         else RunResult(cursor, stored, [], Drained);
      ListenStep(since, target, forwarded, cursor, stored, sessions, i, first);
      ghost var before := forwarded;
      var reconnectDelay := ReconnectDelay(attempt);
      if sessions[i].connects {
        attempt := 0;
        var calls := RunSession(account, sessions[i].wakes);
        forwarded := forwarded + calls;
        assert account.lastUid == first.cursor && account.storedLastUid == first.stored && forwarded == before + first.calls;
      } else {
        assert account.lastUid == first.cursor && account.storedLastUid == first.stored && forwarded == before + first.calls;
      }
      attempt := attempt + 1;
      sleeps := sleeps + [reconnectDelay];
      assert sleeps == slept && attempt == next;
      i := i + 1;
    }
    assert forwarded + [] == forwarded;
  }

  /** One more pass of the reconnect loop sleeps the delay of its attempt. */
  lemma ImapSleepsStep(sleeps: seq<nat>, attempt: nat, sessions: seq<Session>, i: nat)
    requires i < |sessions|
    requires sleeps + ImapSleeps(attempt, ConnectFlags(sessions)[i..]) == ImapSleeps(0, ConnectFlags(sessions))
    ensures (sleeps + [ReconnectDelay(attempt)])
            + ImapSleeps((if sessions[i].connects then 0 else attempt) + 1, ConnectFlags(sessions)[i + 1..])
            == ImapSleeps(0, ConnectFlags(sessions))
  {
    var flags := ConnectFlags(sessions)[i..];
    assert flags[0] == sessions[i].connects && flags[1..] == ConnectFlags(sessions)[i + 1..];
    var later := ImapSleeps((if sessions[i].connects then 0 else attempt) + 1, flags[1..]);
    assert ImapSleeps(attempt, flags) == [ReconnectDelay(attempt)] + later;
    Associative(sleeps, [ReconnectDelay(attempt)], later);
  }

  /** After pass i, the passes still to run forward what the whole run forwards after it. */
  lemma ListenStep(since: Option<int>, target: ListenResult, before: seq<int>, cursor: int, stored: int,
                   sessions: seq<Session>, i: nat, first: RunResult)
    requires i < |sessions|
    requires target == Behind(before, ListenRun(since, cursor, stored, sessions[i..]))
    requires first == if sessions[i].connects then SessionRun(since, cursor, stored, sessions[i].wakes)
                      else RunResult(cursor, stored, [], Drained)
    ensures target == Behind(before + first.calls, ListenRun(since, first.cursor, first.stored, sessions[i + 1..]))
  {
    assert sessions[i..][0] == sessions[i] && sessions[i..][1..] == sessions[i + 1..];
    ListenRunFirst(since, cursor, stored, sessions[i..]);
    Associative(before, first.calls, ListenRun(since, first.cursor, first.stored, sessions[i + 1..]).calls);
  }

  /** A run of passes whose forwards come after the UIDs already forwarded. */
  function Behind(earlier: seq<int>, l: ListenResult): (b: ListenResult)
    ensures b.cursor == l.cursor && b.stored == l.stored && b.calls == earlier + l.calls
  {
    ListenResult(l.cursor, l.stored, earlier + l.calls)
  }

  /** The first pass runs a session exactly when it connects; the rest start where it left off. */
  lemma ListenRunFirst(since: Option<int>, lastUid: int, stored: int, sessions: seq<Session>)
    requires sessions != []
    ensures var first := if sessions[0].connects then SessionRun(since, lastUid, stored, sessions[0].wakes)
                         else RunResult(lastUid, stored, [], Drained);
            var rest := ListenRun(since, first.cursor, first.stored, sessions[1..]);
            ListenRun(since, lastUid, stored, sessions) == ListenResult(rest.cursor, rest.stored, first.calls + rest.calls)
  {
  }

}
