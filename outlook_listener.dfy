/**
 * The Graph change-feed poller: the process-wide cache of forwarded
 * message ids, the forward loop over a batch of feed items, delta-feed
 * pagination with its continuation link, and the polling supervisor.
 *
 * Graph responses, the webhook and the cursor store are oracles: feed pages
 * as a sequence of responses, forward and attachment-fetch outcomes as
 * functions of the message id, the store update as a boolean.
 */
module OutlookListener {
  import opened Wrappers
  import opened Backoff

  const ProcessedTtlMs: int := 24 * 60 * 60 * 1000
  const MaxProcessedIds: nat := 10000

  /** The dedup key `${accountEmail}:${msgId}`. */
  function CacheKey(email: string, msgId: string): string
  {
    email + ":" + msgId
  }

  /** An entry stamped at ts is stale at time now once more than the TTL has passed. */
  predicate Expired(ts: int, now: int)
  {
    now - ts > ProcessedTtlMs
  }

  /** The sweep of `markProcessed`: drop every stale entry. */
  function Swept(m: map<string, int>, now: int): map<string, int>
  {
    map k | k in m && !Expired(m[k], now) :: m[k]
  }

  /** The cache after `markProcessed`: stamp the key, then sweep if the cache exceeds its cap. */
  function AfterMark(m: map<string, int>, key: string, now: int): map<string, int>
  {
    var stamped := m[key := now];
    if |stamped| > MaxProcessedIds then Swept(stamped, now) else stamped
  }

  /** The answer of `isProcessed`: a non-zero stamp that is not stale. */
  predicate Seen(m: map<string, int>, key: string, now: int)
  {
    key in m && m[key] != 0 && !Expired(m[key], now)
  }

  /** The cache after `isProcessed`: a stale entry that was looked up is deleted. */
  function AfterLookup(m: map<string, int>, key: string, now: int): map<string, int>
  {
    if key in m && m[key] != 0 && Expired(m[key], now) then m - {key} else m
  }

  /** The module-level `processedIds` map. */
  class DedupCache {
    var entries: map<string, int>

    constructor()
      ensures entries == map[]
    {
      entries := map[];
    }

    /** `markProcessed` */
    method MarkProcessed(email: string, msgId: string, now: int)
      modifies this
      ensures entries == AfterMark(old(entries), CacheKey(email, msgId), now)
    {
      entries := entries[CacheKey(email, msgId) := now];
      if |entries| > MaxProcessedIds {
        ghost var full := entries;
        var pending := entries.Keys;
        while pending != {}
          invariant pending <= full.Keys
          invariant entries == map k | k in full && (k in pending || !Expired(full[k], now)) :: full[k]
          decreases pending
        {
          var key :| key in pending;
          if Expired(entries[key], now) {
            entries := entries - {key};
          }
          pending := pending - {key};
        }
        assert entries == Swept(full, now);
      }
    }

    /** `isProcessed` */
    method IsProcessed(email: string, msgId: string, now: int) returns (seen: bool)
      modifies this
      ensures seen == Seen(old(entries), CacheKey(email, msgId), now)
      ensures entries == AfterLookup(old(entries), CacheKey(email, msgId), now)
    {
      var key := CacheKey(email, msgId);
      if key !in entries || entries[key] == 0 {
        return false;
      }
      if Expired(entries[key], now) {
        entries := entries - {key};
        return false;
      }
      return true;
    }
  }

  // ---------------------------------------------------------------------
  // Properties of the dedup cache

  /** Marking never loses a fresh entry, and changes no entry but the marked one. */
  lemma MarkKeepsFreshEntries(m: map<string, int>, key: string, now: int)
    ensures var r := AfterMark(m, key, now);
            && key in r && r[key] == now
            && (forall k :: k in m && k != key && !Expired(m[k], now) ==> k in r && r[k] == m[k])
            && (forall k :: k in r && k != key ==> k in m && r[k] == m[k])
  {
  }

  /** A sweep happens only once the cap is exceeded, and then removes only stale entries. */
  lemma MarkSweepsOnlyOverCap(m: map<string, int>, key: string, now: int)
    ensures |m[key := now]| <= MaxProcessedIds ==> AfterMark(m, key, now) == m[key := now]
    ensures forall k :: k in m[key := now] && k !in AfterMark(m, key, now) ==>
              |m[key := now]| > MaxProcessedIds && Expired(m[k], now)
  {
  }

  /** A marked id reads as processed for the whole TTL after its stamp. */
  lemma MarkedIsSeenWithinTtl(m: map<string, int>, key: string, now: int, later: int)
    requires now != 0 && now <= later <= now + ProcessedTtlMs
    ensures Seen(AfterMark(m, key, now), key, later)
  {
  }

  /** `isProcessed` is false for an absent key, and deletes exactly a stale entry it finds. */
  lemma LookupDeletesOnlyStale(m: map<string, int>, key: string, now: int)
    ensures key !in m ==> !Seen(m, key, now) && AfterLookup(m, key, now) == m
    ensures key in m && m[key] != 0 && Expired(m[key], now) ==> !Seen(m, key, now) && AfterLookup(m, key, now) == m - {key}
    ensures Seen(m, key, now) ==> AfterLookup(m, key, now) == m
    ensures !Seen(AfterLookup(m, key, now), key, now)  <==> !Seen(m, key, now)
  {
  }

  // ---------------------------------------------------------------------
  // Forwarding a batch of feed items

  /** A delta-feed item: id, isDraft, receivedDateTime (None when absent or unparsable) and `@removed`. */
  datatype GraphMessage = GraphMessage(id: string, isDraft: bool, receivedDateTime: Option<int>, removed: bool)

  predicate ReceivedBefore(since: Option<int>, received: Option<int>)
  {
    since.Some? && received.Some? && received.value < since.value
  }

  /** One entry of a message's Graph attachment listing; absent fields are None. */
  datatype GraphAttachment = GraphAttachment(odataType: string, name: Option<string>, contentType: Option<string>,
                                             size: Option<int>, contentBytes: Option<string>)

  /** One attachment in the forwarded payload. */
  datatype ForwardedAttachment = ForwardedAttachment(filename: Option<string>, contentType: Option<string>,
                                                     size: Option<int>, content: Option<string>)

  const FileAttachmentType: string := "#microsoft.graph.fileAttachment"

  /** a is g renamed for the payload. */
  predicate Carries(g: GraphAttachment, a: ForwardedAttachment)
  {
    a.filename == g.name && a.contentType == g.contentType && a.size == g.size && a.content == g.contentBytes
  }

  /** `.filter((a) => a['@odata.type'] === '#microsoft.graph.fileAttachment')`: the file attachments, in order. */
  function FileItems(items: seq<GraphAttachment>): (r: seq<GraphAttachment>)
    ensures forall g :: g in r <==> g in items && g.odataType == FileAttachmentType
  {
    if items == [] then []
    else (if items[0].odataType == FileAttachmentType then [items[0]] else []) + FileItems(items[1..])
  }

  /**
   * `fetchAttachments` after the request: `listing` is the response's
   * `value`, None when the response or its `value` is missing. Only file
   * attachments are kept, in order, each renamed for the payload.
   */
  function FetchedAttachments(listing: Option<seq<GraphAttachment>>): (r: seq<ForwardedAttachment>)
    ensures listing.None? ==> r == []
    ensures listing.Some? ==> |r| == |FileItems(listing.value)|
    ensures listing.Some? ==> forall k :: 0 <= k < |r| ==> Carries(FileItems(listing.value)[k], r[k])
  {
    if listing.None? then []
    else
      KeepFilesRenamesFiles(listing.value);
      KeepFiles(listing.value)
  }

  /** The filter and the renaming `map` of `fetchAttachments`, in one pass. */
  function KeepFiles(items: seq<GraphAttachment>): seq<ForwardedAttachment>
  {
    if items == [] then []
    else
      var g := items[0];
      (if g.odataType == FileAttachmentType
       then [ForwardedAttachment(g.name, g.contentType, g.size, g.contentBytes)]
       else []) + KeepFiles(items[1..])
  }

  /** The k-th payload entry is the k-th file attachment of the listing, renamed. */
  lemma {:induction false} KeepFilesRenamesFiles(items: seq<GraphAttachment>)
    ensures |KeepFiles(items)| == |FileItems(items)|
    ensures forall k :: 0 <= k < |KeepFiles(items)| ==> Carries(FileItems(items)[k], KeepFiles(items)[k])
  {
    if items != [] {
      var g := items[0];
      var kept := KeepFiles(items[1..]);
      var files := FileItems(items[1..]);
      KeepFilesRenamesFiles(items[1..]);
      if g.odataType == FileAttachmentType {
        var out := ForwardedAttachment(g.name, g.contentType, g.size, g.contentBytes);
        assert KeepFiles(items) == [out] + kept;
        assert FileItems(items) == [g] + files;
        forall k | 0 <= k < |KeepFiles(items)|
          ensures Carries(FileItems(items)[k], KeepFiles(items)[k])
        {
          if k > 0 {
            assert Carries(files[k - 1], kept[k - 1]);
          }
        }
      } else {
        assert KeepFiles(items) == kept;
        assert FileItems(items) == files;
      }
    }
  }

  /** Filtering a listing piece by piece is filtering it whole; a single entry is kept exactly when it is a file. */
  lemma {:induction false} KeepFilesConcat(a: seq<GraphAttachment>, b: seq<GraphAttachment>)
    ensures KeepFiles(a + b) == KeepFiles(a) + KeepFiles(b)
    ensures FileItems(a + b) == FileItems(a) + FileItems(b)
    decreases |a|
  {
    if a == [] {
      assert a + b == b;
    } else {
      var g := a[0];
      assert (a + b)[0] == g && (a + b)[1..] == a[1..] + b;
      KeepFilesConcat(a[1..], b);
      var out := if g.odataType == FileAttachmentType
                 then [ForwardedAttachment(g.name, g.contentType, g.size, g.contentBytes)] else [];
      var file := if g.odataType == FileAttachmentType then [g] else [];
      assert KeepFiles(a + b) == out + (KeepFiles(a[1..]) + KeepFiles(b));
      assert out + (KeepFiles(a[1..]) + KeepFiles(b)) == (out + KeepFiles(a[1..])) + KeepFiles(b);
      assert FileItems(a + b) == file + (FileItems(a[1..]) + FileItems(b));
      assert file + (FileItems(a[1..]) + FileItems(b)) == (file + FileItems(a[1..])) + FileItems(b);
    }
  }

  /** A listing made only of file attachments is forwarded whole, item by item in order. */
  lemma {:induction false} AllFilesForwarded(items: seq<GraphAttachment>)
    requires forall k :: 0 <= k < |items| ==> items[k].odataType == FileAttachmentType
    ensures |KeepFiles(items)| == |items|
    ensures forall k :: 0 <= k < |items| ==> Carries(items[k], KeepFiles(items)[k])
  {
    if items != [] {
      AllFilesForwarded(items[1..]);
      assert KeepFiles(items)[1..] == KeepFiles(items[1..]);
    }
  }

  /** How `processMessages` ended: all items handled, a forward failed, or an attachment fetch threw. */
  datatype ProcessStatus = AllForwarded | SinkFailed | AttachmentsThrew

  /** What one pass of the loop body did with its item. */
  datatype ItemOutcome = Skipped | Sent | Stopped(status: ProcessStatus)

  datatype ProcessResult = ProcessResult(status: ProcessStatus, entries: map<string, int>, calls: seq<GraphMessage>)

  /** What one pass of the loop body did, and the cache after it. */
  datatype ItemStep = ItemStep(outcome: ItemOutcome, entries: map<string, int>)

  /**
   * One pass of the `processMessages` loop body: skip a draft, an item the
   * cache has seen, or one received before the threshold; fetch the
   * attachments (which may throw); forward; mark a success.
   */
  function StepItem(m: map<string, int>, email: string, since: Option<int>, msg: GraphMessage, now: int,
                    sinkOk: string -> bool, attachmentsOk: string -> bool): ItemStep
  {
    var key := CacheKey(email, msg.id);
    if msg.isDraft || Seen(m, key, now) then ItemStep(Skipped, m)
    else
      var looked := AfterLookup(m, key, now);
      if ReceivedBefore(since, msg.receivedDateTime) then ItemStep(Skipped, looked)
      else if !attachmentsOk(msg.id) then ItemStep(Stopped(AttachmentsThrew), looked)
      else if !sinkOk(msg.id) then ItemStep(Stopped(SinkFailed), looked)
      else ItemStep(Sent, AfterMark(looked, key, now))
  }

  /**
   * The reference definition of `processMessages`: one step per item in
   * order, stopping at the first step that stops; the forward calls are the
   * delivered items and a refused last one.
   */
  function ProcessRun(m: map<string, int>, email: string, since: Option<int>, msgs: seq<GraphMessage>, now: int,
                      sinkOk: string -> bool, attachmentsOk: string -> bool): ProcessResult
    decreases |msgs|
  {
    if msgs == [] then ProcessResult(AllForwarded, m, [])
    else
      var step := StepItem(m, email, since, msgs[0], now, sinkOk, attachmentsOk);
      if step.outcome.Stopped? then
        ProcessResult(step.outcome.status, step.entries, if step.outcome.status == SinkFailed then [msgs[0]] else [])
      else
        var rest := ProcessRun(step.entries, email, since, msgs[1..], now, sinkOk, attachmentsOk);
        ProcessResult(rest.status, rest.entries, (if step.outcome == Sent then [msgs[0]] else []) + rest.calls)
  }

  /** The items the forward of a successful run reached: all calls but a failed last one. */
  function Delivered(r: ProcessResult): seq<GraphMessage>
  {
    if r.status == SinkFailed && |r.calls| > 0 then r.calls[..|r.calls| - 1] else r.calls
  }

  lemma DeliveredCons(msg: GraphMessage, rest: ProcessResult)
    requires rest.status == SinkFailed ==> |rest.calls| > 0
    ensures Delivered(ProcessResult(rest.status, rest.entries, [msg] + rest.calls)) == [msg] + Delivered(rest)
  {
    if rest.status == SinkFailed && |rest.calls| > 0 {
      assert ([msg] + rest.calls)[..|rest.calls|] == [msg] + rest.calls[..|rest.calls| - 1];
    }
  }

  // ---------------------------------------------------------------------
  // Pagination of the delta feed

  /** One response of the delta endpoint; an absent link is "". */
  datatype PageResponse = Page(value: seq<GraphMessage>, nextLink: string, deltaLink: string) | RequestFailed

  /** Accumulated items, the last delta link seen, and the URLs requested in order. */
  datatype Pagination = Pagination(messages: seq<GraphMessage>, deltaLink: string, requested: seq<string>)

  /**
   * The reference definition of the `nextLink` loop: request the link,
   * append the page's items, keep its delta link if it has one, follow its
   * next link until there is none. The i-th request receives pages[i]; a
   * failed request, or one beyond the responses given, aborts the poll.
   */
  function Paginate(pages: seq<PageResponse>, link: string): Option<Pagination>
    decreases |pages|
  {
    if link == "" then Some(NoPages)
    else if pages == [] || pages[0].RequestFailed? then None
    else
      var p := pages[0];
      Extend(Pagination(p.value, p.deltaLink, [link]), Paginate(pages[1..], p.nextLink))
  }

  const NoPages := Pagination([], "", [])

  /** Pages fetched earlier followed by pages fetched later: a later delta link replaces an earlier one. */
  function Combine(a: Pagination, b: Pagination): Pagination
  {
    Pagination(a.messages + b.messages, if b.deltaLink != "" then b.deltaLink else a.deltaLink, a.requested + b.requested)
  }

  function Extend(a: Pagination, tail: Option<Pagination>): Option<Pagination>
  {
    match tail
    case None => None
    case Some(b) => Some(Combine(a, b))
  }

  lemma CombineLaws(a: Pagination, b: Pagination, c: Pagination)
    ensures Combine(NoPages, a) == a && Combine(a, NoPages) == a
    ensures Combine(Combine(a, b), c) == Combine(a, Combine(b, c))
  {
    assert [] + a.messages == a.messages && a.messages + [] == a.messages;
    assert [] + a.requested == a.requested && a.requested + [] == a.requested;
    assert (a.messages + b.messages) + c.messages == a.messages + (b.messages + c.messages);
    assert (a.requested + b.requested) + c.requested == a.requested + (b.requested + c.requested);
  }

  /** `allMessages.filter((m) => !m['@removed'])` */
  function DropRemoved(msgs: seq<GraphMessage>): (r: seq<GraphMessage>)
    ensures forall m :: m in r <==> m in msgs && !m.removed
  {
    if msgs == [] then []
    else (if msgs[0].removed then [] else [msgs[0]]) + DropRemoved(msgs[1..])
  }

  /**
   * The filter keeps order and multiplicity: it works piece by piece.
   */
  lemma {:induction false} DropRemovedConcat(a: seq<GraphMessage>, b: seq<GraphMessage>)
    ensures DropRemoved(a + b) == DropRemoved(a) + DropRemoved(b)
    decreases |a|
  {
    if a == [] {
      assert a + b == b;
    } else {
      var ab := a + b;
      assert ab[0] == a[0] && ab[1..] == a[1..] + b;
      DropRemovedConcat(a[1..], b);
      var kept := if a[0].removed then [] else [a[0]];
      Associative(kept, DropRemoved(a[1..]), DropRemoved(b));
    }
  }

  /** A single item is kept exactly when it is not `@removed`. */
  lemma DropRemovedOne(m: GraphMessage)
    ensures DropRemoved([m]) == if m.removed then [] else [m]
  {
    assert [m][1..] == [];
  }



  /** How one polling cycle ended, as the supervisor sees it. */
  datatype CycleOutcome = Completed(processedOk: bool) | Threw

  datatype CycleResult = CycleResult(outcome: CycleOutcome, deltaLink: string, storedDeltaLink: string,
                                     entries: map<string, int>, calls: seq<GraphMessage>)

  /** The URL the poll starts from: the stored delta link, else the base query. */
  function StartLink(deltaLink: string, baseUrl: string): string
  {
    if deltaLink != "" then deltaLink else baseUrl
  }

  /**
   * One cycle of the supervisor's try block: poll, save the new delta link
   * (before anything is forwarded), then process the live items.
   */
  function CycleRun(deltaLink: string, stored: string, m: map<string, int>, email: string, since: Option<int>,
                    pages: seq<PageResponse>, baseUrl: string, persistOk: bool, now: int,
                    sinkOk: string -> bool, attachmentsOk: string -> bool): CycleResult
  {
    match Paginate(pages, StartLink(deltaLink, baseUrl))
    case None => CycleResult(Threw, deltaLink, stored, m, [])
    case Some(p) =>
      var link := if p.deltaLink != "" then p.deltaLink else deltaLink;
      var saved := if p.deltaLink != "" && persistOk then p.deltaLink else stored;
      var r := ProcessRun(m, email, since, DropRemoved(p.messages), now, sinkOk, attachmentsOk);
      var outcome := if r.status == AttachmentsThrew then Threw else Completed(r.status == AllForwarded);
      CycleResult(outcome, link, saved, r.entries, r.calls)
  }

  class OutlookAccount {
    const userEmail: string
    /** `emails_since`, parsed; None when absent or unparsable. */
    const emailsSince: Option<int>
    /** `account.outlook_delta_link` in memory ("" when none). */
    var deltaLink: string
    /** The store's copy of the delta link. */
    var storedDeltaLink: string

    constructor(userEmail: string, emailsSince: Option<int>, deltaLink: string)
      ensures this.userEmail == userEmail && this.emailsSince == emailsSince
      ensures this.deltaLink == deltaLink && storedDeltaLink == deltaLink
    {
      this.userEmail := userEmail;
      this.emailsSince := emailsSince;
      this.deltaLink := deltaLink;
      this.storedDeltaLink := deltaLink;
    }

    /** One pass of the `processMessages` loop body for `msg`. */
    method HandleMessage(cache: DedupCache, msg: GraphMessage, now: int,
                         sinkOk: string -> bool, attachmentsOk: string -> bool)
      returns (outcome: ItemOutcome)
      modifies cache
      ensures ItemStep(outcome, cache.entries)
              == StepItem(old(cache.entries), userEmail, emailsSince, msg, now, sinkOk, attachmentsOk)
    {
      if msg.isDraft {
        return Skipped;
      }
      ghost var before := cache.entries;
      var seen := cache.IsProcessed(userEmail, msg.id, now);
      if seen {
        LookupDeletesOnlyStale(before, CacheKey(userEmail, msg.id), now);
        return Skipped;
      }
      if ReceivedBefore(emailsSince, msg.receivedDateTime) {
        return Skipped;
      }
      if !attachmentsOk(msg.id) {
        return Stopped(AttachmentsThrew);
      }
      var ok := sinkOk(msg.id);
      if !ok {
        return Stopped(SinkFailed);
      }
      cache.MarkProcessed(userEmail, msg.id, now);
      return Sent;
    }

    /** `processMessages` */
    method ProcessMessages(cache: DedupCache, messages: seq<GraphMessage>, now: int,
                           sinkOk: string -> bool, attachmentsOk: string -> bool)
      returns (status: ProcessStatus, forwarded: seq<GraphMessage>)
      modifies cache
      ensures ProcessRun(old(cache.entries), userEmail, emailsSince, messages, now, sinkOk, attachmentsOk)
              == ProcessResult(status, cache.entries, forwarded)
    {
      ghost var target := ProcessRun(cache.entries, userEmail, emailsSince, messages, now, sinkOk, attachmentsOk);
      forwarded := [];
      var i := 0;
      while i < |messages|
        invariant 0 <= i <= |messages|
        invariant var rest := ProcessRun(cache.entries, userEmail, emailsSince, messages[i..], now, sinkOk, attachmentsOk);
                  target == ProcessResult(rest.status, rest.entries, forwarded + rest.calls)
      {
        var msg := messages[i];
        assert messages[i..][0] == msg && messages[i..][1..] == messages[i + 1..];
        var outcome := HandleMessage(cache, msg, now, sinkOk, attachmentsOk);
        if outcome.Stopped? {
          if outcome.status == SinkFailed {
            forwarded := forwarded + [msg];
          } else {
            assert forwarded + [] == forwarded;
          }
          return outcome.status, forwarded;
        }
        ghost var rest := ProcessRun(cache.entries, userEmail, emailsSince, messages[i + 1..], now, sinkOk, attachmentsOk);
        if outcome == Sent {
          ghost var sent := forwarded;
          forwarded := forwarded + [msg];
          assert sent + ([msg] + rest.calls) == forwarded + rest.calls;
        } else {
          assert [] + rest.calls == rest.calls;
        }
        i := i + 1;
      }
      status := AllForwarded;
    }

    /** `pollDelta`: returns None when a request fails (the error propagates to the supervisor). */
    method PollDelta(pages: seq<PageResponse>, baseUrl: string, persistOk: bool)
      returns (polled: Option<seq<GraphMessage>>, requested: seq<string>)
      modifies this
      ensures match Paginate(pages, StartLink(old(deltaLink), baseUrl))
              case None => polled.None? && deltaLink == old(deltaLink) && storedDeltaLink == old(storedDeltaLink)
              case Some(p) =>
                && polled == Some(DropRemoved(p.messages))
                && requested == p.requested
                && deltaLink == (if p.deltaLink != "" then p.deltaLink else old(deltaLink))
                && storedDeltaLink == (if p.deltaLink != "" && persistOk then p.deltaLink else old(storedDeltaLink))
    {
      var url := StartLink(deltaLink, baseUrl);
      ghost var target := Paginate(pages, url);
      var allMessages: seq<GraphMessage> := [];
      var nextLink := url;
      var newDeltaLink := "";
      requested := [];
      var i := 0;
      assert pages[i..] == pages;
      if target.Some? {
        CombineLaws(target.value, target.value, target.value);
      }
      while nextLink != ""
        invariant 0 <= i <= |pages|
        invariant target == Extend(Pagination(allMessages, newDeltaLink, requested), Paginate(pages[i..], nextLink))
        invariant deltaLink == old(deltaLink) && storedDeltaLink == old(storedDeltaLink)
        decreases |pages| - i
      {
        if i == |pages| || pages[i].RequestFailed? {
          assert pages[i..] == [] || pages[i..][0].RequestFailed?;
          return None, requested;
        }
        var data := pages[i];
        assert pages[i..][1..] == pages[i + 1..];
        ghost var tail := Paginate(pages[i + 1..], data.nextLink);
        if tail.Some? {
          CombineLaws(Pagination(allMessages, newDeltaLink, requested), Pagination(data.value, data.deltaLink, [nextLink]), tail.value);
        }
        requested := requested + [nextLink];
        allMessages := allMessages + data.value;
        nextLink := data.nextLink;
        if data.deltaLink != "" {
          newDeltaLink := data.deltaLink;
        }
        i := i + 1;
      }
      CombineLaws(Pagination(allMessages, newDeltaLink, requested), NoPages, NoPages);
      if newDeltaLink != "" {
        deltaLink := newDeltaLink;
        if persistOk {
          storedDeltaLink := newDeltaLink;
        }
      }
      polled := Some(DropRemoved(allMessages));
    }

    /** One pass of the supervisor's try block. */
    method RunCycle(cache: DedupCache, pages: seq<PageResponse>, baseUrl: string, persistOk: bool, now: int,
                    sinkOk: string -> bool, attachmentsOk: string -> bool)
      returns (outcome: CycleOutcome, forwarded: seq<GraphMessage>)
      modifies this, cache
      ensures CycleRun(old(deltaLink), old(storedDeltaLink), old(cache.entries), userEmail, emailsSince,
                       pages, baseUrl, persistOk, now, sinkOk, attachmentsOk)
              == CycleResult(outcome, deltaLink, storedDeltaLink, cache.entries, forwarded)
    {
      var polled, requested := PollDelta(pages, baseUrl, persistOk);
      if polled.None? {
        return Threw, [];
      }
      var messages := polled.value;
      var status: ProcessStatus := AllForwarded;
      forwarded := [];
      if |messages| > 0 {
        status, forwarded := ProcessMessages(cache, messages, now, sinkOk, attachmentsOk);
      }
      outcome := if status == AttachmentsThrew then Threw else Completed(status == AllForwarded);
    }
  }

  // ---------------------------------------------------------------------
  // Properties of the forward loop

  /** A key the cache reports as seen stays seen through every step of a run at the same time. */
  lemma SeenSurvivesOtherKeys(m: map<string, int>, key: string, other: string, now: int)
    requires Seen(m, key, now) && other != key
    ensures Seen(AfterLookup(m, other, now), key, now)
    ensures Seen(AfterMark(m, other, now), key, now)
  {
  }

  /**
   * What each outcome of a step means: a delivered item passed every filter,
   * its attachments were fetched, the webhook accepted it and it is stamped
   * with the clock; a refused item passed every filter and is left unseen;
   * an item is skipped exactly when it is a draft, seen, or received before
   * the threshold; no step stops with AllForwarded.
   */
  lemma StepItemFacts(m: map<string, int>, email: string, since: Option<int>, msg: GraphMessage, now: int,
                      sinkOk: string -> bool, attachmentsOk: string -> bool)
    ensures var s := StepItem(m, email, since, msg, now, sinkOk, attachmentsOk);
            var key := CacheKey(email, msg.id);
            var passes := !msg.isDraft && !Seen(m, key, now) && !ReceivedBefore(since, msg.receivedDateTime);
            && (s.outcome == Skipped <==> !passes)
            && (s.outcome == Stopped(AttachmentsThrew) <==> passes && !attachmentsOk(msg.id))
            && (s.outcome == Stopped(SinkFailed) <==> passes && attachmentsOk(msg.id) && !sinkOk(msg.id))
            && (s.outcome == Sent <==> passes && attachmentsOk(msg.id) && sinkOk(msg.id))
            && (s.outcome == Stopped(SinkFailed) ==> !Seen(s.entries, key, now))
            && (s.outcome == Sent ==> key in s.entries && s.entries[key] == now)
            && s.outcome != Stopped(AllForwarded)
  {
    LookupDeletesOnlyStale(m, CacheKey(email, msg.id), now);
  }

  /** A step keeps a seen key seen, and does not forward the item with that key. */
  lemma StepKeepsSeen(m: map<string, int>, email: string, since: Option<int>, msg: GraphMessage, now: int,
                      sinkOk: string -> bool, attachmentsOk: string -> bool, target: string)
    requires Seen(m, target, now)
    ensures var s := StepItem(m, email, since, msg, now, sinkOk, attachmentsOk);
            Seen(s.entries, target, now) && (s.outcome != Skipped ==> CacheKey(email, msg.id) != target)
  {
    var key := CacheKey(email, msg.id);
    if key != target {
      SeenSurvivesOtherKeys(m, target, key, now);
      SeenSurvivesOtherKeys(AfterLookup(m, key, now), target, key, now);
    }
  }

  /** A step keeps an entry stamped with its own clock. */
  lemma StepKeepsStamp(m: map<string, int>, email: string, since: Option<int>, msg: GraphMessage, now: int,
                       sinkOk: string -> bool, attachmentsOk: string -> bool, key: string)
    requires key in m && m[key] == now
    ensures var s := StepItem(m, email, since, msg, now, sinkOk, attachmentsOk);
            key in s.entries && s.entries[key] == now
  {
    var s := StepItem(m, email, since, msg, now, sinkOk, attachmentsOk);
    var k := CacheKey(email, msg.id);
    var looked := AfterLookup(m, k, now);
    assert !Expired(m[key], now);
    assert key in looked && looked[key] == now;
    if s.outcome == Sent {
      assert s.entries == AfterMark(looked, k, now);
      MarkKeepsFreshEntries(looked, k, now);
    } else {
      assert s.entries == m || s.entries == looked;
    }
  }

  /** A message whose key the cache has seen is never forwarded. */
  lemma {:induction false} SeenIsNeverForwarded(m: map<string, int>, email: string, since: Option<int>, msgs: seq<GraphMessage>,
                                                now: int, sinkOk: string -> bool, attachmentsOk: string -> bool, id: string)
    requires Seen(m, CacheKey(email, id), now)
    ensures forall c :: c in ProcessRun(m, email, since, msgs, now, sinkOk, attachmentsOk).calls ==> c.id != id
    decreases |msgs|
  {
    if msgs != [] {
      var step := StepItem(m, email, since, msgs[0], now, sinkOk, attachmentsOk);
      StepKeepsSeen(m, email, since, msgs[0], now, sinkOk, attachmentsOk, CacheKey(email, id));
      if !step.outcome.Stopped? {
        SeenIsNeverForwarded(step.entries, email, since, msgs[1..], now, sinkOk, attachmentsOk, id);
      }
    }
  }

  predicate DistinctIds(calls: seq<GraphMessage>)
  {
    forall i, j :: 0 <= i < j < |calls| ==> calls[i].id != calls[j].id
  }

  /** Within one run each id is forwarded at most once (for a non-zero clock). */
  lemma {:induction false} ForwardedAtMostOnce(m: map<string, int>, email: string, since: Option<int>, msgs: seq<GraphMessage>,
                                               now: int, sinkOk: string -> bool, attachmentsOk: string -> bool)
    requires now != 0
    ensures DistinctIds(ProcessRun(m, email, since, msgs, now, sinkOk, attachmentsOk).calls)
    decreases |msgs|
  {
    if msgs != [] {
      var msg := msgs[0];
      var step := StepItem(m, email, since, msg, now, sinkOk, attachmentsOk);
      if !step.outcome.Stopped? {
        ForwardedAtMostOnce(step.entries, email, since, msgs[1..], now, sinkOk, attachmentsOk);
        var rest := ProcessRun(step.entries, email, since, msgs[1..], now, sinkOk, attachmentsOk).calls;
        var calls := ProcessRun(m, email, since, msgs, now, sinkOk, attachmentsOk).calls;
        if step.outcome == Sent {
          StepItemFacts(m, email, since, msg, now, sinkOk, attachmentsOk);
          SeenIsNeverForwarded(step.entries, email, since, msgs[1..], now, sinkOk, attachmentsOk, msg.id);
          assert calls == [msg] + rest;
          forall i, j | 0 <= i < j < |calls| ensures calls[i].id != calls[j].id {
            assert calls[j] == rest[j - 1];
            if i == 0 {
              assert calls[i] == msg;
              assert rest[j - 1] in rest;
            } else {
              assert calls[i] == rest[i - 1];
            }
          }
        } else {
          assert calls == [] + rest == rest;
        }
      }
    }
  }

  /** Only non-draft items of the batch received at or after the threshold reach the webhook. */
  lemma {:induction false} ForwardRespectsFilters(m: map<string, int>, email: string, since: Option<int>, msgs: seq<GraphMessage>,
                                                  now: int, sinkOk: string -> bool, attachmentsOk: string -> bool)
    ensures forall c :: c in ProcessRun(m, email, since, msgs, now, sinkOk, attachmentsOk).calls ==>
              c in msgs && !c.isDraft && !ReceivedBefore(since, c.receivedDateTime)
    decreases |msgs|
  {
    if msgs != [] {
      var step := StepItem(m, email, since, msgs[0], now, sinkOk, attachmentsOk);
      StepItemFacts(m, email, since, msgs[0], now, sinkOk, attachmentsOk);
      if !step.outcome.Stopped? {
        ForwardRespectsFilters(step.entries, email, since, msgs[1..], now, sinkOk, attachmentsOk);
      }
    }
  }

  /** A run that ended on a refused forward has the refused item as its last call, left unmarked. */
  predicate RefusedLastUnmarked(r: ProcessResult, email: string, now: int, sinkOk: string -> bool)
  {
    r.status == SinkFailed ==>
      && |r.calls| > 0 && !sinkOk(r.calls[|r.calls| - 1].id)
      && !Seen(r.entries, CacheKey(email, r.calls[|r.calls| - 1].id), now)
  }

  /** A run whose first step stops reports a refused forward only for that item. */
  lemma RefusedAtHead(m: map<string, int>, email: string, since: Option<int>, msgs: seq<GraphMessage>,
                      now: int, sinkOk: string -> bool, attachmentsOk: string -> bool)
    requires msgs != [] && StepItem(m, email, since, msgs[0], now, sinkOk, attachmentsOk).outcome.Stopped?
    ensures RefusedLastUnmarked(ProcessRun(m, email, since, msgs, now, sinkOk, attachmentsOk), email, now, sinkOk)
  {
    StepItemFacts(m, email, since, msgs[0], now, sinkOk, attachmentsOk);
  }

  /** A run whose first step goes on ends the way the rest of the run ends. */
  lemma RefusedAfterHead(m: map<string, int>, email: string, since: Option<int>, msgs: seq<GraphMessage>,
                         now: int, sinkOk: string -> bool, attachmentsOk: string -> bool)
    requires msgs != []
    requires var s := StepItem(m, email, since, msgs[0], now, sinkOk, attachmentsOk);
             && !s.outcome.Stopped?
             && RefusedLastUnmarked(ProcessRun(s.entries, email, since, msgs[1..], now, sinkOk, attachmentsOk), email, now, sinkOk)
    ensures RefusedLastUnmarked(ProcessRun(m, email, since, msgs, now, sinkOk, attachmentsOk), email, now, sinkOk)
  {
    var step := StepItem(m, email, since, msgs[0], now, sinkOk, attachmentsOk);
    var r := ProcessRun(m, email, since, msgs, now, sinkOk, attachmentsOk);
    var rest := ProcessRun(step.entries, email, since, msgs[1..], now, sinkOk, attachmentsOk);
    if rest.status == SinkFailed {
      assert r.calls[|r.calls| - 1] == rest.calls[|rest.calls| - 1];
    }
  }

  /** A failed forward is the last call; its id was refused by the webhook and is left unmarked. */
  lemma {:induction false} FailedForwardLeftUnmarked(m: map<string, int>, email: string, since: Option<int>, msgs: seq<GraphMessage>,
                                                     now: int, sinkOk: string -> bool, attachmentsOk: string -> bool)
    ensures RefusedLastUnmarked(ProcessRun(m, email, since, msgs, now, sinkOk, attachmentsOk), email, now, sinkOk)
    decreases |msgs|
  {
    if msgs != [] {
      var step := StepItem(m, email, since, msgs[0], now, sinkOk, attachmentsOk);
      if step.outcome.Stopped? {
        RefusedAtHead(m, email, since, msgs, now, sinkOk, attachmentsOk);
      } else {
        FailedForwardLeftUnmarked(step.entries, email, since, msgs[1..], now, sinkOk, attachmentsOk);
        RefusedAfterHead(m, email, since, msgs, now, sinkOk, attachmentsOk);
      }
    }
  }

  /** Every call before a failed last one was accepted by the webhook. */
  lemma {:induction false} DeliveredWereAccepted(m: map<string, int>, email: string, since: Option<int>, msgs: seq<GraphMessage>,
                                                 now: int, sinkOk: string -> bool, attachmentsOk: string -> bool)
    ensures forall c :: c in Delivered(ProcessRun(m, email, since, msgs, now, sinkOk, attachmentsOk)) ==> sinkOk(c.id)
    decreases |msgs|
  {
    if msgs != [] {
      var msg := msgs[0];
      var step := StepItem(m, email, since, msg, now, sinkOk, attachmentsOk);
      if !step.outcome.Stopped? {
        var rest := ProcessRun(step.entries, email, since, msgs[1..], now, sinkOk, attachmentsOk);
        DeliveredWereAccepted(step.entries, email, since, msgs[1..], now, sinkOk, attachmentsOk);
        if step.outcome == Sent {
          StepItemFacts(m, email, since, msg, now, sinkOk, attachmentsOk);
          FailedForwardLeftUnmarked(step.entries, email, since, msgs[1..], now, sinkOk, attachmentsOk);
          DeliveredCons(msg, rest);
        } else {
          assert [] + rest.calls == rest.calls;
        }
      }
    }
  }

  /** Every delivered item ends the run marked with the run's clock. */
  lemma {:induction false} DeliveredAreMarked(m: map<string, int>, email: string, since: Option<int>, msgs: seq<GraphMessage>,
                                              now: int, sinkOk: string -> bool, attachmentsOk: string -> bool)
    ensures var r := ProcessRun(m, email, since, msgs, now, sinkOk, attachmentsOk);
            forall c :: c in Delivered(r) ==> CacheKey(email, c.id) in r.entries && r.entries[CacheKey(email, c.id)] == now
    decreases |msgs|
  {
    if msgs != [] {
      var msg := msgs[0];
      var step := StepItem(m, email, since, msg, now, sinkOk, attachmentsOk);
      if !step.outcome.Stopped? {
        var rest := ProcessRun(step.entries, email, since, msgs[1..], now, sinkOk, attachmentsOk);
        DeliveredAreMarked(step.entries, email, since, msgs[1..], now, sinkOk, attachmentsOk);
        if step.outcome == Sent {
          StepItemFacts(m, email, since, msg, now, sinkOk, attachmentsOk);
          StampSurvives(step.entries, email, since, msgs[1..], now, sinkOk, attachmentsOk, CacheKey(email, msg.id));
          FailedForwardLeftUnmarked(step.entries, email, since, msgs[1..], now, sinkOk, attachmentsOk);
          DeliveredCons(msg, rest);
        } else {
          assert [] + rest.calls == rest.calls;
        }
      }
    }
  }

  /** An entry stamped with the run's own clock is kept, with that stamp, to the end of the run. */
  lemma {:induction false} StampSurvives(m: map<string, int>, email: string, since: Option<int>, msgs: seq<GraphMessage>,
                                         now: int, sinkOk: string -> bool, attachmentsOk: string -> bool, key: string)
    requires key in m && m[key] == now
    ensures var r := ProcessRun(m, email, since, msgs, now, sinkOk, attachmentsOk);
            key in r.entries && r.entries[key] == now
    decreases |msgs|
  {
    if msgs != [] {
      var step := StepItem(m, email, since, msgs[0], now, sinkOk, attachmentsOk);
      StepKeepsStamp(m, email, since, msgs[0], now, sinkOk, attachmentsOk, key);
      if !step.outcome.Stopped? {
        StampSurvives(step.entries, email, since, msgs[1..], now, sinkOk, attachmentsOk, key);
      }
    }
  }

  /**
   * Dedup suppression: an item delivered in one run is not forwarded again
   * by a later run within the TTL, whatever the feed redelivers.
   */
  lemma RedeliveryWithinTtlSuppressed(m: map<string, int>, email: string, since: Option<int>,
                                      first: seq<GraphMessage>, second: seq<GraphMessage>, now: int, later: int,
                                      sinkOk: string -> bool, attachmentsOk: string -> bool,
                                      sinkOk2: string -> bool, attachmentsOk2: string -> bool, c: GraphMessage)
    requires now != 0 && now <= later <= now + ProcessedTtlMs
    requires c in Delivered(ProcessRun(m, email, since, first, now, sinkOk, attachmentsOk))
    ensures var r1 := ProcessRun(m, email, since, first, now, sinkOk, attachmentsOk);
            forall d :: d in ProcessRun(r1.entries, email, since, second, later, sinkOk2, attachmentsOk2).calls ==> d.id != c.id
  {
    var r1 := ProcessRun(m, email, since, first, now, sinkOk, attachmentsOk);
    DeliveredAreMarked(m, email, since, first, now, sinkOk, attachmentsOk);
    assert Seen(r1.entries, CacheKey(email, c.id), later);
    SeenIsNeverForwarded(r1.entries, email, since, second, later, sinkOk2, attachmentsOk2, c.id);
  }

  // ---------------------------------------------------------------------
  // Properties of pagination and of the cycle

  /**
   * The poll requests the start link first and then exactly the next link
   * of each page it received, in order.
   */
  lemma {:induction false} PaginationFollowsNextLinks(pages: seq<PageResponse>, link: string)
    requires Paginate(pages, link).Some?
    ensures var p := Paginate(pages, link).value;
            && |p.requested| <= |pages|
            && (link != "" ==> |p.requested| > 0 && p.requested[0] == link)
            && (forall i :: 0 <= i < |p.requested| ==> pages[i].Page? && p.requested[i] != "")
            && (forall i :: 0 <= i < |p.requested| - 1 ==> p.requested[i + 1] == pages[i].nextLink)
            && (|p.requested| > 0 ==> pages[|p.requested| - 1].nextLink == "")
    decreases |pages|
  {
    if link != "" {
      PaginationFollowsNextLinks(pages[1..], pages[0].nextLink);
    }
  }

  /** The delta link of the i-th response ("" for a failed or missing one). */
  function PageDeltaLink(pages: seq<PageResponse>, i: int): string
  {
    if 0 <= i < |pages| && pages[i].Page? then pages[i].deltaLink else ""
  }

  /** The delta link kept is that of the last page that carried one. */
  lemma {:induction false} PaginationKeepsLastDeltaLink(pages: seq<PageResponse>, link: string, i: nat)
    requires Paginate(pages, link).Some?
    requires i < |Paginate(pages, link).value.requested| && PageDeltaLink(pages, i) != ""
    requires forall j :: i < j < |Paginate(pages, link).value.requested| ==> PageDeltaLink(pages, j) == ""
    ensures Paginate(pages, link).value.deltaLink == PageDeltaLink(pages, i)
    decreases |pages|
  {
    var rest := Paginate(pages[1..], pages[0].nextLink).value;
    forall j | 0 <= j < |rest.requested| ensures PageDeltaLink(pages[1..], j) == PageDeltaLink(pages, j + 1) {
    }
    if i > 0 {
      PaginationKeepsLastDeltaLink(pages[1..], pages[0].nextLink, i - 1);
    } else {
      NoLaterDeltaLink(pages[1..], pages[0].nextLink);
    }
  }

  /** When no page carries a delta link, none is kept (and the stored one stays in use). */
  lemma {:induction false} NoLaterDeltaLink(pages: seq<PageResponse>, link: string)
    requires Paginate(pages, link).Some?
    requires forall j :: 0 <= j < |Paginate(pages, link).value.requested| ==> PageDeltaLink(pages, j) == ""
    ensures Paginate(pages, link).value.deltaLink == ""
    decreases |pages|
  {
    if link != "" {
      var rest := Paginate(pages[1..], pages[0].nextLink).value;
      assert PageDeltaLink(pages, 0) == "";
      forall j | 0 <= j < |rest.requested| ensures PageDeltaLink(pages[1..], j) == "" {
        assert PageDeltaLink(pages[1..], j) == PageDeltaLink(pages, j + 1);
      }
      NoLaterDeltaLink(pages[1..], pages[0].nextLink);
    }
  }

  /**
   * The open question of the design, exposed: when a forward fails, the
   * cycle reports failure, yet the delta link issued by this poll is already
   * in place (and saved if the store accepted it) while the failed item is
   * not in the cache, so a poll from that link cannot bring it back.
   */
  lemma FailedItemBehindSavedDeltaLink(deltaLink: string, stored: string, m: map<string, int>, email: string,
                                       since: Option<int>, pages: seq<PageResponse>, baseUrl: string, persistOk: bool,
                                       now: int, sinkOk: string -> bool, attachmentsOk: string -> bool)
    requires Paginate(pages, StartLink(deltaLink, baseUrl)).Some?
    requires Paginate(pages, StartLink(deltaLink, baseUrl)).value.deltaLink != ""
    requires CycleRun(deltaLink, stored, m, email, since, pages, baseUrl, persistOk, now, sinkOk, attachmentsOk).outcome
             == Completed(false)
    ensures var p := Paginate(pages, StartLink(deltaLink, baseUrl)).value;
            var r := CycleRun(deltaLink, stored, m, email, since, pages, baseUrl, persistOk, now, sinkOk, attachmentsOk);
            && r.deltaLink == p.deltaLink
            && (persistOk ==> r.storedDeltaLink == p.deltaLink)
            && |r.calls| > 0
            && !sinkOk(r.calls[|r.calls| - 1].id)
            && !Seen(r.entries, CacheKey(email, r.calls[|r.calls| - 1].id), now)
  {
    var p := Paginate(pages, StartLink(deltaLink, baseUrl)).value;
    FailedForwardLeftUnmarked(m, email, since, DropRemoved(p.messages), now, sinkOk, attachmentsOk);
  }

  /**
   * A concrete loss: the first poll returns item "m1" with delta link "d1"
   * and the webhook refuses it; the next poll starts from "d1", whose page
   * no longer lists "m1", so "m1" is never forwarded again.
   */
  lemma LostItemExample()
    ensures var item := GraphMessage("m1", false, None, false);
            var first := CycleRun("", "", map[], "a", None, [Page([item], "", "d1")], "base", true, 1,
                                  (id: string) => false, (id: string) => true);
            var second := CycleRun(first.deltaLink, first.storedDeltaLink, first.entries, "a", None,
                                   [Page([], "", "d2")], "base", true, 2,
                                   (id: string) => true, (id: string) => true);
            && first.outcome == Completed(false) && first.calls == [item]
            && first.deltaLink == "d1" && first.storedDeltaLink == "d1"
            && second.outcome == Completed(true) && second.calls == []
  {
    var item := GraphMessage("m1", false, None, false);
    assert DropRemoved([item]) == [item];
    assert [item] + [] == [item];
  }

  // ---------------------------------------------------------------------
  // The polling supervisor

  /** One pass's inputs: feed responses, store outcome, clock, webhook and attachment-fetch outcomes. */
  datatype CycleInput = CycleInput(pages: seq<PageResponse>, persistOk: bool, now: int,
                                   sinkOk: string -> bool, attachmentsOk: string -> bool)

  /**
   * Sleeps of `listenToOutlookInbox`: 30 s after any completed cycle (the
   * counter resets even when processing reported failure), the backoff delay
   * after a cycle that threw (the counter then grows).
   */
  function OutlookSleeps(attempt: nat, completed: seq<bool>): (r: seq<nat>)
    ensures |r| == |completed|
    decreases |completed|
  {
    if completed == [] then []
    else if completed[0] then [PollIntervalMs] + OutlookSleeps(0, completed[1..])
    else [ReconnectDelay(attempt)] + OutlookSleeps(attempt + 1, completed[1..])
  }

  /** After any completed cycle, the next failure backs off from the 5 s base again. */
  lemma {:induction false} OutlookResetAfterCompletion(attempt: nat, completed: seq<bool>, i: nat)
    requires i + 1 < |completed| && completed[i] && !completed[i + 1]
    ensures OutlookSleeps(attempt, completed)[i] == PollIntervalMs
    ensures OutlookSleeps(attempt, completed)[i + 1] == ReconnectBaseMs
    decreases i
  {
    if i > 0 {
      OutlookResetAfterCompletion(if completed[0] then 0 else attempt + 1, completed[1..], i - 1);
    }
  }

  /** Consecutive failures from attempt a sleep ReconnectDelay(a), ReconnectDelay(a + 1), ... */
  lemma {:induction false} OutlookFailuresBackOff(attempt: nat, completed: seq<bool>, i: nat)
    requires i < |completed|
    requires forall k :: 0 <= k <= i ==> !completed[k]
    ensures OutlookSleeps(attempt, completed)[i] == ReconnectDelay(attempt + i)
    decreases i
  {
    if i > 0 {
      OutlookFailuresBackOff(attempt + 1, completed[1..], i - 1);
    }
  }

  /** The supervisor's cycle outcomes, the account's links and the cache after a run of passes, and the items forwarded. */
  datatype SupervisorRun = SupervisorRun(completed: seq<bool>, deltaLink: string, storedDeltaLink: string,
                                         entries: map<string, int>, calls: seq<GraphMessage>)

  /** The reference run of the supervisor: `CycleRun` once per pass, each starting where the previous one left off. */
  function Supervise(deltaLink: string, stored: string, m: map<string, int>, email: string, since: Option<int>,
                     baseUrl: string, cycles: seq<CycleInput>): SupervisorRun
    decreases |cycles|
  {
    if cycles == [] then SupervisorRun([], deltaLink, stored, m, [])
    else
      var prev := Supervise(deltaLink, stored, m, email, since, baseUrl, cycles[..|cycles| - 1]);
      var c := cycles[|cycles| - 1];
      var r := CycleRun(prev.deltaLink, prev.storedDeltaLink, prev.entries, email, since,
                        c.pages, baseUrl, c.persistOk, c.now, c.sinkOk, c.attachmentsOk);
      SupervisorRun(prev.completed + [r.outcome.Completed?], r.deltaLink, r.storedDeltaLink, r.entries, prev.calls + r.calls)
  }

  /**
   * `listenToOutlookInbox` over a finite run of passes: the sleeps it takes
   * and the items it forwards. `configured` is false when the tenant id, the
   * mailbox address or the client credentials are missing; the listener
   * then returns at once.
   */
  method ListenToOutlookInbox(account: OutlookAccount, cache: DedupCache, baseUrl: string, configured: bool,
                              cycles: seq<CycleInput>)
    returns (sleeps: seq<nat>, forwarded: seq<GraphMessage>, ghost completed: seq<bool>)
    modifies account, cache
    ensures !configured ==> sleeps == [] && forwarded == [] && completed == []
    ensures !configured ==> account.deltaLink == old(account.deltaLink) && account.storedDeltaLink == old(account.storedDeltaLink)
                            && cache.entries == old(cache.entries)
    ensures configured ==> var run := Supervise(old(account.deltaLink), old(account.storedDeltaLink), old(cache.entries),
                                                account.userEmail, account.emailsSince, baseUrl, cycles);
                           && completed == run.completed && forwarded == run.calls
                           && account.deltaLink == run.deltaLink && account.storedDeltaLink == run.storedDeltaLink
                           && cache.entries == run.entries
    ensures sleeps == OutlookSleeps(0, completed)
  {
    var attempt: nat := 0;
    sleeps := [];
    forwarded := [];
    completed := [];
    if !configured {
      return;
    }
    ghost var d0, s0, m0 := account.deltaLink, account.storedDeltaLink, cache.entries;
    var i := 0;
    while i < |cycles|
      invariant 0 <= i <= |cycles| && |completed| == i
      invariant attempt == AttemptAfter(0, completed)
      invariant sleeps == OutlookSleeps(0, completed)
      invariant Supervise(d0, s0, m0, account.userEmail, account.emailsSince, baseUrl, cycles[..i])
                == SupervisorRun(completed, account.deltaLink, account.storedDeltaLink, cache.entries, forwarded)
    {
      var c := cycles[i];
      ghost var prev := SupervisorRun(completed, account.deltaLink, account.storedDeltaLink, cache.entries, forwarded);
      var reconnectDelay := ReconnectDelay(attempt);
      var outcome, calls := account.RunCycle(cache, c.pages, baseUrl, c.persistOk, c.now, c.sinkOk, c.attachmentsOk);
      SuperviseStep(d0, s0, m0, account.userEmail, account.emailsSince, baseUrl, cycles, i, prev,
                    CycleResult(outcome, account.deltaLink, account.storedDeltaLink, cache.entries, calls));
      forwarded := forwarded + calls;
      SleepsExtend(0, completed, outcome.Completed?);
      if outcome.Completed? {
        attempt := 0;
        sleeps := sleeps + [PollIntervalMs];
      } else {
        attempt := attempt + 1;
        sleeps := sleeps + [reconnectDelay];
      }
      completed := completed + [outcome.Completed?];
      i := i + 1;
    }
    assert cycles[..i] == cycles;
  }

  /** The first request of the pass fails: the poll throws before anything is saved or forwarded. */
  predicate PollFails(c: CycleInput)
  {
    |c.pages| > 0 && c.pages[0].RequestFailed?
  }

  /** The last pass of a run starts from the state the passes before it left. */
  lemma SuperviseLast(deltaLink: string, stored: string, m: map<string, int>, email: string, since: Option<int>,
                      baseUrl: string, cycles: seq<CycleInput>)
    requires cycles != []
    ensures var prev := Supervise(deltaLink, stored, m, email, since, baseUrl, cycles[..|cycles| - 1]);
            var c := cycles[|cycles| - 1];
            var r := CycleRun(prev.deltaLink, prev.storedDeltaLink, prev.entries, email, since,
                              c.pages, baseUrl, c.persistOk, c.now, c.sinkOk, c.attachmentsOk);
            Supervise(deltaLink, stored, m, email, since, baseUrl, cycles)
            == SupervisorRun(prev.completed + [r.outcome.Completed?], r.deltaLink, r.storedDeltaLink, r.entries, prev.calls + r.calls)
  {
  }

  /** Extending a run by one pass, stated on the pass's result. */
  lemma SuperviseStep(deltaLink: string, stored: string, m: map<string, int>, email: string, since: Option<int>,
                      baseUrl: string, cycles: seq<CycleInput>, i: nat, prev: SupervisorRun, r: CycleResult)
    requires i < |cycles|
    requires Supervise(deltaLink, stored, m, email, since, baseUrl, cycles[..i]) == prev
    requires CycleRun(prev.deltaLink, prev.storedDeltaLink, prev.entries, email, since, cycles[i].pages, baseUrl,
                      cycles[i].persistOk, cycles[i].now, cycles[i].sinkOk, cycles[i].attachmentsOk) == r
    ensures Supervise(deltaLink, stored, m, email, since, baseUrl, cycles[..i + 1])
            == SupervisorRun(prev.completed + [r.outcome.Completed?], r.deltaLink, r.storedDeltaLink, r.entries, prev.calls + r.calls)
  {
    SuperviseLast(deltaLink, stored, m, email, since, baseUrl, cycles[..i + 1]);
    assert cycles[..i + 1][..i] == cycles[..i];
  }

  /** n passes that all threw. */
  function AllThrew(n: nat): (r: seq<bool>)
    ensures |r| == n && forall k :: 0 <= k < n ==> !r[k]
  {
    if n == 0 then [] else AllThrew(n - 1) + [false]
  }

  /**
   * Passes whose polls all fail leave the delta links and the cache as they
   * were, forward nothing, and every one of them counts as thrown.
   */
  lemma {:induction false} FailedPollsChangeNothing(deltaLink: string, stored: string, m: map<string, int>, email: string,
                                                    since: Option<int>, baseUrl: string, cycles: seq<CycleInput>)
    requires baseUrl != ""
    requires forall k :: 0 <= k < |cycles| ==> PollFails(cycles[k])
    ensures Supervise(deltaLink, stored, m, email, since, baseUrl, cycles)
            == SupervisorRun(AllThrew(|cycles|), deltaLink, stored, m, [])
    decreases |cycles|
  {
    if cycles != [] {
      var n := |cycles| - 1;
      assert forall k :: 0 <= k < n ==> cycles[..n][k] == cycles[k];
      FailedPollsChangeNothing(deltaLink, stored, m, email, since, baseUrl, cycles[..n]);
      FailedPollThrows(deltaLink, stored, m, email, since, baseUrl, cycles[n]);
      SuperviseLast(deltaLink, stored, m, email, since, baseUrl, cycles);
    }
  }

  /** A pass whose first request fails throws and changes nothing. */
  lemma FailedPollThrows(deltaLink: string, stored: string, m: map<string, int>, email: string,
                         since: Option<int>, baseUrl: string, c: CycleInput)
    requires baseUrl != "" && PollFails(c)
    ensures CycleRun(deltaLink, stored, m, email, since, c.pages, baseUrl, c.persistOk, c.now, c.sinkOk, c.attachmentsOk)
            == CycleResult(Threw, deltaLink, stored, m, [])
  {
    assert Paginate(c.pages, StartLink(deltaLink, baseUrl)).None?;
  }

  /** From a fresh start, the k-th of a run of failed polls sleeps ReconnectDelay(k): 5, 10, 20, 40, then 60 s. */
  lemma FailedPollsBackOff(deltaLink: string, stored: string, m: map<string, int>, email: string,
                           since: Option<int>, baseUrl: string, cycles: seq<CycleInput>)
    requires baseUrl != ""
    requires forall k :: 0 <= k < |cycles| ==> PollFails(cycles[k])
    ensures var run := Supervise(deltaLink, stored, m, email, since, baseUrl, cycles);
            && |OutlookSleeps(0, run.completed)| == |cycles|
            && forall k :: 0 <= k < |cycles| ==> OutlookSleeps(0, run.completed)[k] == ReconnectDelay(k)
  {
    FailedPollsChangeNothing(deltaLink, stored, m, email, since, baseUrl, cycles);
    ThrownPassesBackOff(|cycles|);
  }

  /** n thrown passes from a fresh start sleep ReconnectDelay(0), ..., ReconnectDelay(n - 1). */
  lemma ThrownPassesBackOff(n: nat)
    ensures forall k :: 0 <= k < n ==> OutlookSleeps(0, AllThrew(n))[k] == ReconnectDelay(k)
  {
    var all := AllThrew(n);
    forall k | 0 <= k < n
      ensures OutlookSleeps(0, all)[k] == ReconnectDelay(k)
    {
      OutlookFailuresBackOff(0, all, k);
    }
  }

  /** The counter after a run of passes. */
  function AttemptAfter(attempt: nat, completed: seq<bool>): nat
    decreases |completed|
  {
    if completed == [] then attempt
    else AttemptAfter(if completed[0] then 0 else attempt + 1, completed[1..])
  }

  lemma {:induction false} SleepsExtend(attempt: nat, completed: seq<bool>, next: bool)
    ensures OutlookSleeps(attempt, completed + [next])
            == OutlookSleeps(attempt, completed)
               + [if next then PollIntervalMs else ReconnectDelay(AttemptAfter(attempt, completed))]
    ensures AttemptAfter(attempt, completed + [next])
            == if next then 0 else AttemptAfter(attempt, completed) + 1
    decreases |completed|
  {
    if completed != [] {
      assert (completed + [next])[1..] == completed[1..] + [next];
      SleepsExtend(if completed[0] then 0 else attempt + 1, completed[1..], next);
    }
  }
}
