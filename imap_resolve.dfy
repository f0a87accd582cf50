/**
 * Finding a message's UID from its Message-ID: the folder must be listed,
 * then the folder is fetched in batches of 500 sequence numbers and the
 * first envelope whose Message-ID, without angle brackets, equals the
 * target wins. The server's listing, the folder size and its answer to
 * each fetch are parameters.
 */
module ImapResolve {
  import opened Wrappers
  import opened Batches
  import opened SmtpSend

  /** `s.replace(/[<>]/g, '')` */
  function StripAngles(s: string): (r: string)
    ensures |r| <= |s|
    ensures forall k :: 0 <= k < |r| ==> r[k] != '<' && r[k] != '>'
  {
    if s == [] then []
    else (if s[0] == '<' || s[0] == '>' then [] else [s[0]]) + StripAngles(s[1..])
  }

  predicate NoAngles(s: string)
  {
    forall k :: 0 <= k < |s| ==> s[k] != '<' && s[k] != '>'
  }

  /** Stripping leaves text without brackets unchanged, so stripping twice is stripping once. */
  lemma {:induction false} StripAnglesKeepsPlainText(s: string)
    requires NoAngles(s)
    ensures StripAngles(s) == s
  {
    if s != [] {
      StripAnglesKeepsPlainText(s[1..]);
    }
  }

  lemma {:induction false} StripAnglesConcat(a: string, b: string)
    ensures StripAngles(a + b) == StripAngles(a) + StripAngles(b)
  {
    if a == [] {
      assert a + b == b;
    } else {
      assert (a + b)[1..] == a[1..] + b;
      StripAnglesConcat(a[1..], b);
    }
  }

  /**
   * The ids this worker mints are found by the resolver: stripping the
   * brackets of `<stamp.random@host>` gives `stamp.random@host`.
   */
  lemma NoAnglesConcat(a: string, b: string)
    requires NoAngles(a) && NoAngles(b)
    ensures NoAngles(a + b)
  {
  }

  lemma MintedIdResolves(stamp: string, random: string, host: string)
    requires NoAngles(stamp) && NoAngles(random) && NoAngles(host)
    ensures StripAngles(MessageId(stamp, random, host)) == stamp + "." + random + "@" + host
  {
    var inner := stamp + "." + random + "@" + host;
    NoAnglesConcat(stamp, ".");
    NoAnglesConcat(stamp + ".", random);
    NoAnglesConcat(stamp + "." + random, "@");
    NoAnglesConcat(stamp + "." + random + "@", host);
    StripAnglesKeepsPlainText(inner);
    assert MessageId(stamp, random, host) == "<" + inner + ">";
    StripAnglesConcat("<" + inner, ">");
    StripAnglesConcat("<", inner);
  }

  /** One fetched message: its UID and its envelope's Message-ID (None when absent). */
  datatype Fetched = Fetched(uid: int, messageId: Option<string>)

  /** The test in the fetch loop: a non-empty stripped Message-ID equal to the target. */
  predicate Matches(m: Fetched, target: string)
  {
    m.messageId.Some? && StripAngles(m.messageId.value) != "" && StripAngles(m.messageId.value) == target
  }

  /** The UID of the first message of a batch that matches. */
  function FirstMatch(msgs: seq<Fetched>, target: string): Option<int>
  {
    if msgs == [] then None
    else if Matches(msgs[0], target) then Some(msgs[0].uid)
    else FirstMatch(msgs[1..], target)
  }

  /** A match found is the first matching message of the batch; no match means no message matches. */
  lemma {:induction false} FirstMatchIs(msgs: seq<Fetched>, target: string)
    ensures var r := FirstMatch(msgs, target);
            && (r.Some? ==> exists i :: 0 <= i < |msgs| && Matches(msgs[i], target) && msgs[i].uid == r.value
                                       && forall k :: 0 <= k < i ==> !Matches(msgs[k], target))
            && (r.None? ==> forall i :: 0 <= i < |msgs| ==> !Matches(msgs[i], target))
  {
    if msgs != [] && !Matches(msgs[0], target) {
      var r := FirstMatch(msgs[1..], target);
      FirstMatchIs(msgs[1..], target);
      if r.Some? {
        var i :| 0 <= i < |msgs[1..]| && Matches(msgs[1..][i], target) && msgs[1..][i].uid == r.value
                 && forall k :: 0 <= k < i ==> !Matches(msgs[1..][k], target);
        assert Matches(msgs[i + 1], target) && forall k :: 0 <= k < i + 1 ==> !Matches(msgs[k], target) by {
          forall k | 0 <= k < i + 1 ensures !Matches(msgs[k], target) {
            if k > 0 {
              assert msgs[k] == msgs[1..][k - 1];
            }
          }
        }
      } else {
        assert forall i :: 1 <= i < |msgs| ==> msgs[i] == msgs[1..][i - 1];
      }
    }
  }


  datatype ResolveError = MailboxNotFound | MessageIdNotFound

  /** One list entry of the server's mailbox listing. */
  datatype ListedMailbox = ListedMailbox(path: string, name: string)

  /** `listFolders`: the paths of the listing, in the server's order. */
  function ListFolders(listing: seq<ListedMailbox>): (paths: seq<string>)
    ensures |paths| == |listing|
    ensures forall i :: 0 <= i < |paths| ==> paths[i] == listing[i].path
  {
    if listing == [] then [] else [listing[0].path] + ListFolders(listing[1..])
  }

  /** The batches from `cursor` on, each answered by `fetch`, stopping at the first match. */
  function ScanBatches(fetch: Range -> seq<Fetched>, target: string, cursor: int, exists_: int): Option<int>
    decreases exists_ - cursor + 1
  {
    if cursor > exists_ then None
    else
      var r := Range(cursor, Min(cursor + ResolveUidScanBatchSize - 1, exists_));
      match FirstMatch(fetch(r), target)
      case Some(u) => Some(u)
      case None => ScanBatches(fetch, target, r.hi + 1, exists_)
  }

  /** The reference definition of `resolveUid` (the folder path is used as given). */
  function Resolve(listing: seq<ListedMailbox>, folder: string, messageId: string, exists_: nat,
                   fetch: Range -> seq<Fetched>): Result<int, ResolveError>
  {
    if folder !in ListFolders(listing) then Err(MailboxNotFound)
    else if exists_ == 0 then Err(MessageIdNotFound)
    else match ScanBatches(fetch, StripAngles(messageId), 1, exists_)
      case Some(u) => Ok(u)
      case None => Err(MessageIdNotFound)
  }

  /** The `for await` loop over one batch. */
  method FirstMatchIn(msgs: seq<Fetched>, target: string) returns (found: Option<int>)
    ensures found == FirstMatch(msgs, target)
  {
    var i := 0;
    while i < |msgs|
      invariant 0 <= i <= |msgs|
      invariant FirstMatch(msgs, target) == FirstMatch(msgs[i..], target)
    {
      assert msgs[i..][1..] == msgs[i + 1..];
      var mid := if msgs[i].messageId.Some? then StripAngles(msgs[i].messageId.value) else "";
      if mid != "" && mid == target {
        return Some(msgs[i].uid);
      }
      i := i + 1;
    }
    return None;
  }

  /** `mailboxes.find((m) => m.path === folderPath)` */
  method FindMailbox(listing: seq<ListedMailbox>, folder: string) returns (found: bool)
    ensures found <==> folder in ListFolders(listing)
  {
    var i := 0;
    while i < |listing|
      invariant 0 <= i <= |listing|
      invariant forall k :: 0 <= k < i ==> listing[k].path != folder
    {
      if listing[i].path == folder {
        assert ListFolders(listing)[i] == folder;
        return true;
      }
      i := i + 1;
    }
    return false;
  }

  /** No batch of the walk holds a match. */
  ghost predicate NoMatchIn(fetch: Range -> seq<Fetched>, target: string, rs: seq<Range>)
  {
    forall j {:trigger FirstMatch(fetch(rs[j]), target)} :: 0 <= j < |rs| ==> FirstMatch(fetch(rs[j]), target).None?
  }

  /**
   * The batch loop over sequence numbers 1..exists_: a miss has walked every
   * sequence number and matched in none of the batches; a hit is the first
   * match of the last batch fetched.
   */
  method ScanFolder(fetch: Range -> seq<Fetched>, target: string, exists_: nat)
    returns (found: Option<int>, ranges: seq<Range>)
    ensures found == ScanBatches(fetch, target, 1, exists_)
    ensures Batched(ranges, 1, exists_, ResolveUidScanBatchSize)
    ensures found.None? ==> Complete(ranges, 1, exists_)
    ensures found.None? ==> forall j :: 0 <= j < |ranges| ==> FirstMatch(fetch(ranges[j]), target).None?
    ensures found.Some? ==> |ranges| > 0 && FirstMatch(fetch(ranges[|ranges| - 1]), target) == found
    ensures found.Some? ==> NoMatchIn(fetch, target, ranges[..|ranges| - 1])
  {
    ranges := [];
    var seqStart := 1;
    while seqStart <= exists_
      invariant 1 <= seqStart <= exists_ + 1
      invariant ScanBatches(fetch, target, 1, exists_) == ScanBatches(fetch, target, seqStart, exists_)
      invariant Batched(ranges, 1, exists_, ResolveUidScanBatchSize)
      invariant if ranges == [] then seqStart == 1 else ranges[|ranges| - 1].hi + 1 == seqStart
      invariant NoMatchIn(fetch, target, ranges)
      decreases exists_ - seqStart
    {
      var seqEnd := Min(seqStart + ResolveUidScanBatchSize - 1, exists_);
      var batch := Range(seqStart, seqEnd);
      BatchedExtend(ranges, 1, exists_, ResolveUidScanBatchSize, seqStart);
      found := FirstMatchIn(fetch(batch), target);
      ghost var before := ranges;
      ranges := ranges + [batch];
      assert ranges[|ranges| - 1] == batch;
      if found.Some? {
        assert ranges[..|ranges| - 1] == before;
        return;
      }
      forall j | 0 <= j < |ranges| ensures FirstMatch(fetch(ranges[j]), target).None? {
        if j < |before| {
          assert ranges[j] == before[j];
        }
      }
      seqStart := seqEnd + 1;
    }
    found := None;
  }

  /** `resolveUid`: the result, and the ranges it fetched. */
  method ResolveUid(listing: seq<ListedMailbox>, folder: string, messageId: string, exists_: nat,
                    fetch: Range -> seq<Fetched>)
    returns (result: Result<int, ResolveError>, ranges: seq<Range>)
    ensures result == Resolve(listing, folder, messageId, exists_, fetch)
    ensures Batched(ranges, 1, exists_, ResolveUidScanBatchSize)
    ensures result == Err(MessageIdNotFound) ==>
              Complete(ranges, 1, exists_)
              && forall j :: 0 <= j < |ranges| ==> FirstMatch(fetch(ranges[j]), StripAngles(messageId)).None?
    ensures result.Ok? ==>
              |ranges| > 0 && FirstMatch(fetch(ranges[|ranges| - 1]), StripAngles(messageId)) == Some(result.value)
              && NoMatchIn(fetch, StripAngles(messageId), ranges[..|ranges| - 1])
  {
    ranges := [];
    var listed := FindMailbox(listing, folder);
    if !listed {
      return Err(MailboxNotFound), ranges;
    }
    var target := StripAngles(messageId);
    if exists_ == 0 {
      return Err(MessageIdNotFound), ranges;
    }
    var found;
    found, ranges := ScanFolder(fetch, target, exists_);
    if found.Some? {
      return Ok(found.value), ranges;
    }
    return Err(MessageIdNotFound), ranges;
  }

  // ---------------------------------------------------------------------

  /** The resolver opens a folder exactly when `listFolders` would report its path. */
  lemma ResolveAcceptsListedFolders(listing: seq<ListedMailbox>, folder: string, messageId: string, exists_: nat,
                                    fetch: Range -> seq<Fetched>)
    ensures Resolve(listing, folder, messageId, exists_, fetch) == Err(MailboxNotFound)
            <==> forall i :: 0 <= i < |listing| ==> listing[i].path != folder
  {
    var paths := ListFolders(listing);
    if folder in paths {
      var k :| 0 <= k < |paths| && paths[k] == folder;
      assert listing[k].path == folder;
    }
  }

  /** Every batch scan answer is a UID the server reported for a matching envelope. */
  lemma {:induction false} ScanFindsOnlyMatches(fetch: Range -> seq<Fetched>, target: string, cursor: int, exists_: int)
    requires ScanBatches(fetch, target, cursor, exists_).Some?
    ensures exists lo, hi, i :: cursor <= lo <= hi <= exists_ && 0 <= i < |fetch(Range(lo, hi))|
              && Matches(fetch(Range(lo, hi))[i], target)
              && fetch(Range(lo, hi))[i].uid == ScanBatches(fetch, target, cursor, exists_).value
    decreases exists_ - cursor + 1
  {
    var r := Range(cursor, Min(cursor + ResolveUidScanBatchSize - 1, exists_));
    if FirstMatch(fetch(r), target).None? {
      ScanFindsOnlyMatches(fetch, target, r.hi + 1, exists_);
    } else {
      FirstMatchIs(fetch(r), target);
    }
  }

  /** A Message-ID that strips to nothing is never found: the loop demands a non-empty match. */
  lemma EmptyTargetNeverFound(listing: seq<ListedMailbox>, folder: string, messageId: string, exists_: nat,
                              fetch: Range -> seq<Fetched>)
    requires StripAngles(messageId) == ""
    ensures Resolve(listing, folder, messageId, exists_, fetch).Err?
  {
    if folder in ListFolders(listing) && exists_ > 0 && ScanBatches(fetch, "", 1, exists_).Some? {
      ScanFindsOnlyMatches(fetch, "", 1, exists_);
    }
  }
}
