# email-worker in Dafny

A model of the mailbox-synchronisation core of email-worker. The service
watches IMAP inboxes and Microsoft Graph (Outlook) mailboxes, forwards each
new message to a webhook, and serves a few mail actions: send over SMTP,
save an IMAP draft, resolve a Message-ID to a UID, move an Outlook message,
and send or reply through Graph.

One module per source file, plus three shared ones:

- `Wrappers` (`Option`, `Result`, and the `Associative` regrouping step the loop proofs share).
- `Backoff`: the reconnect delay `min(5000 * 2^attempt, 60000)`, with the constants of `src/config.js`.
- `Batches`: the 500-wide contiguous ranges walked by alignment and by the UID resolver.
- `MimeLines`: the CRLF layout of a raw message, and how a reader splits it back.

What the model covers:

- **IMAP listener** (`ImapListener`). The class `ImapAccount` holds the in-memory `last_uid`, the store's copy and the `emails_since` threshold.
  - `EnsureAligned` is the alignment. It runs the batched scan `ScanFrom` from the heuristic start and again from 1, and is proved against the reference `AlignedLastUid`.
  - `CommitUnseen` and `ProcessNewUnseen` are the forward-then-commit loop, proved against `CommitRun` and `UnseenRun`.
  - `RunSession` and `ListenToInbox` are a connected session and the reconnect supervisor, proved against `SessionRun` and `ListenRun`.
  - The lemmas cover these properties:
    - alignment, with its ranges read as UIDs, never skips qualifying mail, lowers the cursor only past maxUid, and is idempotent. The source's own fetch reads those ranges as sequence numbers, and then qualifying mail can be skipped once messages have been expunged (see "## Findings");
    - commits go in ascending order, leave no gap and respect the threshold;
    - the cursor is the last success;
    - failures back off.
- **Outlook listener** (`OutlookListener`).
  - `DedupCache` is the module-level map of forwarded ids, with a TTL and a size-capped sweep.
  - `OutlookAccount.ProcessMessages`, `PollDelta` and `RunCycle` are the forward loop, the `nextLink` pagination and one poll cycle, each proved against a reference function.
  - `ListenToOutlookInbox` is the polling supervisor, proved against `Supervise`, which runs `CycleRun` once per pass.
  - The delta link is saved before anything is forwarded. So an item whose forward fails can end up behind the saved link and never be seen again. The model keeps that order, and `FailedItemBehindSavedDeltaLink` and `LostItemExample` state the consequence.
- **Quoted-printable body and raw messages** (`QuotedPrintable`, `SmtpSend`, `ImapDraft`).
  - The encoder works on the UTF-8 bytes and copies printable ASCII other than `=`, plus space and tab, as is. Every other byte becomes `=XX` in uppercase hex. This is rules (1) and (2) of section 6.7 of RFC 2045. The encoder adds no soft line breaks, so the body is always one line.
  - `DecodeEncode` proves that decoding gives the bytes back.
  - The raw message is eight fixed headers, then `In-Reply-To` and `References` when they are given, then CRLF CRLF and the encoded body. Header lines are joined by CRLF as in section 2.1 of RFC 5322.
  - `RawEmailReadsBack` and `DraftReadsBack` prove that a reader gets back exactly those header lines and the body, as long as no field holds a CR.
  - The draft builder's copy of the encoder is the same code, so it is modelled once.
- **Lookups and helpers**:
  - `ImapResolve`: Message-ID lookup by a batched sequence scan, and `listFolders`.
  - `OutlookMove`: folder resolution and the patches and move of `moveOutlookEmail`.
  - `OutlookSend`: recipient splitting and trimming, attachment normalisation, and the send and reply requests.
  - `OutlookAuth`: the token cache, with reuse while more than a minute is left.

Network, store and webhook calls are parameters of the members that make them:
- a `Mailbox` snapshot;
- the UID list a search returns;
- per-item outcomes of the webhook forward and of the store update (functions to `bool`);
- Graph responses as values, or as functions of the request;
- `JSON.parse` as a function to `Option`.

The clock, random parts and `toUTCString` text are parameters. A JavaScript value that is absent or falsy is `""` for strings and `None` elsewhere.

## Model

| member | source | states |
|---|---|---|
| Backoff.ReconnectDelay | src/imap/listener.js:193-196 | the reconnect delay always lies between 5000 and 60000 ms |
| Backoff.DelayMonotone | src/outlook/listener.js:193-196 | the delay never shrinks as the attempt counter grows |
| Backoff.DelayCapped | src/config.js:2-3 | from attempt 4 on, the delay is the 60000 ms cap |
| Backoff.DelayDoublesBelowCap | src/imap/listener.js:193-196 | below the cap, each further attempt doubles the delay |
| Backoff.FirstFiveDelays | src/config.js:2-3 | attempts 0 to 4 sleep 5, 10, 20, 40 and 60 s |
| Batches.BatchedShape | src/imap/resolve.js:48-68 | a walk starts at lo, each range is batch-sized (cut at hi), and each range starts right after the previous one |
| Batches.BatchedExtend | src/imap/listener.js:34-53 | appending the range `[c, min(c+size-1, hi)]` that starts after the last one extends a valid walk |
| Batches.BatchedDisjoint | src/imap/resolve.js:48-68 | the ranges of a walk are strictly ascending and do not overlap |
| Batches.BatchedCovers | src/imap/resolve.js:48-68 | every position from the start to the end of the last range lies in some range |
| Batches.CompleteWalkPartitions | src/imap/resolve.js:48-68 | a finished walk touches exactly the positions lo..hi, each in one range |
| ImapListener.LeastQualifyingSpec | src/imap/listener.js:39-50 | the result is the least UID in [lo, hi] that exists and is dated at or after the threshold, or None when there is none |
| ImapListener.LeastQualifyingIs | src/imap/listener.js:44-50 | a qualifying UID with no qualifying UID below it in the range is the one found |
| ImapListener.SmallestCandidate | src/imap/listener.js:38-51 | one fetched range yields the minimum of its qualifying candidates, or None |
| ImapListener.ScanFrom | src/imap/listener.js:31-57 | the range-by-range loop returns what the reference scan `ScanFound` finds, which is the least qualifying UID from startUid to maxUid |
| ImapListener.ScanFoundIsLeast | src/imap/listener.js:33-56 | taking the least qualifying UID of the first 500-wide range that holds one gives the least qualifying UID of the whole span |
| ImapListener.ScanRangesBatched | src/imap/listener.js:34-37 | the ranges `scanFrom` fetches form a 500-wide walk from startUid, cut at maxUid |
| ImapListener.ScanRangesEnd | src/imap/listener.js:33-56 | the fetched ranges cover startUid..maxUid when nothing qualifies, and otherwise the last one holds the UID found |
| ImapListener.FindUidSince | src/imap/listener.js:59-63 | the first scan's answer, or the answer of a rescan from 1 when the first scan found nothing and did not start at 1 |
| ImapListener.Above | src/imap/listener.js:115 | exactly the search results above the cursor are kept |
| ImapListener.InsertSorted | src/imap/listener.js:121 | inserting into an ascending list keeps it ascending |
| ImapListener.InsertPermutes | src/imap/listener.js:121 | inserting adds exactly the one element and loses none |
| ImapListener.SortAscending | src/imap/listener.js:121 | the numeric sort returns an ascending permutation of its input |
| ImapListener.ImapAccount.PersistQuietly | src/imap/listener.js:69-73 | a failed store update inside alignment is swallowed and leaves the stored cursor as it was |
| ImapListener.ImapAccount.EnsureAligned | src/imap/listener.js:15-92 | the in-memory cursor becomes the aligned cursor; the store follows only when the cursor changed and the update succeeded |
| ImapListener.ImapAccount.CommitUnseen | src/imap/listener.js:124-177 | the fetch loop leaves cursor, store, webhook calls and stop reason as the reference commit run defines |
| ImapListener.ImapAccount.ProcessNewUnseen | src/imap/listener.js:94-180 | the cursor, store, webhook calls and stop reason are those of `UnseenRun`: align, keep the search results above the aligned cursor, sort them ascending and commit them; nothing is fetched when none remain |
| ImapListener.AlignSkipsOnlyPreThresholdMail | src/imap/listener.js:78-91 | every UID alignment moves the cursor past is missing, undated or dated before the threshold |
| ImapListener.AlignLowersOnlyPastMaxUid | src/imap/listener.js:65-75 | alignment lowers the cursor only when no message qualifies and the stored cursor is above maxUid; it then becomes maxUid |
| ImapListener.AlignIdempotent | src/imap/listener.js:15-92 | aligning an already aligned cursor against the same mailbox changes nothing |
| ImapListener.AlignExample | src/imap/listener.js:59-91 | with UIDs 50 (before) and 80 (after the threshold) and no cursor, alignment sets the cursor to 79 |
| ImapListener.LeastAtPositions | src/imap/listener.js:35-50 | one range read as sequence numbers yields only UIDs present and dated at or after the threshold |
| ImapListener.ScanAtPositions | src/imap/listener.js:31-56 | the batched scan read as sequence numbers yields only UIDs present and dated at or after the threshold |
| ImapListener.SequenceReadingSkipsMail | src/imap/listener.js:39-42 | with UIDs 11 to 530 present (520 messages) and a cursor of 12, alignment as written fetches positions 12 to 511, all within the mailbox, and moves the cursor to 21 past qualifying UID 13, where the UID reading keeps it at 12 |
| ImapListener.PositionsAreUids | src/imap/listener.js:35-50 | with nothing expunged, a range read as sequence numbers finds what it finds read as UIDs |
| ImapListener.ScanReadingsAgree | src/imap/listener.js:31-56 | with nothing expunged, both readings of the batched scan find the same UID |
| ImapListener.AlignReadingsAgree | src/imap/listener.js:15-91 | with nothing expunged, alignment as written and the modelled alignment give the same cursor |
| ImapListener.CommitCallsAscend | src/imap/listener.js:115-133 | UIDs reach the webhook in strictly ascending order, all above the starting cursor |
| ImapListener.CommitRespectsThreshold | src/imap/listener.js:137-140 | no message dated before the threshold reaches the webhook |
| ImapListener.CommitCursorIsLastSuccess | src/imap/listener.js:162-175 | the cursor ends at the last UID the webhook accepted; a refused UID is the last call and the cursor stays below it |
| ImapListener.CommitLeavesNoGap | src/imap/listener.js:130-176 | with ascending candidates, every eligible UID between the old and new cursor was handed to the webhook |
| ImapListener.CommitStoreLagsOnlyOnThrow | src/imap/listener.js:174-175 | store and memory agree after a cycle unless the store update threw, and then memory is ahead |
| ImapListener.CommitExample | src/imap/listener.js:162-175 | cursor 100 with 101 to 103 unseen and 103 refused ends at 102, with 103 the last call |
| ImapListener.ImapSleeps | src/imap/listener.js:190-260 | one sleep per pass of the reconnect loop |
| ImapListener.ImapFailuresBackOff | src/imap/listener.js:190-196 | consecutive failed connects sleep ReconnectDelay(a), ReconnectDelay(a+1), ... |
| ImapListener.ImapSleepAfterSession | src/imap/listener.js:206-260 | after a session that connected, the next pass sleeps 10 s: the counter was reset and then incremented |
| ImapListener.ImapSleepsExample | src/imap/listener.js:190-260 | four failures, a connected session and one more failure sleep 5, 10, 20, 40, 60 and 10 s |
| ImapListener.RunSession | src/imap/listener.js:213-238 | the session's webhook calls, cursor and stored cursor are those of `SessionRun`: one `processNewUnseen` per wake, each from where the last left off, ending at the first commit whose store update throws |
| ImapListener.SessionStoreLagsOnlyOnThrow | src/imap/listener.js:172-175 | when alignment's store updates succeed, a session ends with store and memory equal unless a store update threw, and then memory is ahead |
| ImapListener.ListenToInbox | src/imap/listener.js:182-269 | without credentials nothing happens and nothing changes; otherwise the sleeps are those `ImapSleeps` gives for the connect outcomes, and the calls and cursors are those of `ListenRun`, where a failed connect changes nothing and a connected pass runs `SessionRun` |
| OutlookListener.DedupCache.constructor | src/outlook/listener.js:31 | the cache starts empty |
| OutlookListener.DedupCache.MarkProcessed | src/outlook/listener.js:35-43 | stamps `email:id` with the clock, then sweeps stale entries when the cache exceeds 10000 entries |
| OutlookListener.DedupCache.IsProcessed | src/outlook/listener.js:45-54 | answers whether a fresh non-zero stamp exists, deleting the entry when it is stale |
| OutlookListener.MarkKeepsFreshEntries | src/outlook/listener.js:35-43 | marking keeps every fresh entry, stamps the marked key with the clock, and changes no other entry |
| OutlookListener.MarkSweepsOnlyOverCap | src/outlook/listener.js:37-42 | no sweep at or below the cap; a sweep removes only entries older than 24 h |
| OutlookListener.MarkedIsSeenWithinTtl | src/outlook/listener.js:32-54 | a marked id reads as processed for the whole 24 h after its stamp |
| OutlookListener.LookupDeletesOnlyStale | src/outlook/listener.js:45-54 | an absent key is not seen and nothing changes; a stale key is not seen and is deleted; a seen key leaves the cache as it is |
| OutlookListener.FetchedAttachments | src/outlook/listener.js:13-29 | no listing gives []; otherwise the k-th payload entry carries the name, type, size and bytes of the k-th file attachment, and there is one per file attachment |
| OutlookListener.FileItems | src/outlook/listener.js:22 | the filter keeps exactly the entries typed as file attachments |
| OutlookListener.KeepFilesRenamesFiles | src/outlook/listener.js:21-28 | the fused filter and rename yields, index by index, the file attachments in order, each renamed for the payload |
| OutlookListener.KeepFilesConcat | src/outlook/listener.js:21-28 | the filter and the renaming work piece by piece, so order and repeats are kept |
| OutlookListener.AllFilesForwarded | src/outlook/listener.js:21-28 | a listing made only of file attachments is forwarded whole, item by item in order |
| OutlookListener.DropRemoved | src/outlook/listener.js:174 | exactly the items not marked `@removed` are kept |
| OutlookListener.DropRemovedConcat | src/outlook/listener.js:174 | the filter works piece by piece, so the kept items stay in order with their repeats |
| OutlookListener.DropRemovedOne | src/outlook/listener.js:174 | a single item is kept exactly when it is not `@removed` |
| OutlookListener.OutlookAccount.HandleMessage | src/outlook/listener.js:59-117 | one pass of the loop body: its outcome and the cache afterwards are those of the reference step `StepItem` |
| OutlookListener.StepItemFacts | src/outlook/listener.js:60-115 | an item is skipped exactly when it is a draft, already processed or received before the threshold; otherwise a failed attachment fetch or refused forward stops the run with the item unmarked, and an accepted one is stamped with the clock |
| OutlookListener.StepKeepsSeen | src/outlook/listener.js:62-65 | a step keeps a processed key processed and does not forward the item carrying it |
| OutlookListener.StepKeepsStamp | src/outlook/listener.js:35-54 | a step keeps an entry stamped with its own clock |
| OutlookListener.OutlookAccount.ProcessMessages | src/outlook/listener.js:56-120 | the cache, status and webhook calls after the loop are those of the reference run `ProcessRun` |
| OutlookListener.OutlookAccount.PollDelta | src/outlook/listener.js:122-175 | the poll starts at the stored delta link or the base query and follows `nextLink`; on success it returns the live items and installs the last delta link seen (the store follows when it accepts); a failed request leaves the link unchanged |
| OutlookListener.OutlookAccount.RunCycle | src/outlook/listener.js:198-214 | one cycle polls, saves the link, then processes; its outcome and state are those of `CycleRun` |
| OutlookListener.SeenSurvivesOtherKeys | src/outlook/listener.js:35-54 | looking up or marking another key never un-sees a key |
| OutlookListener.SeenIsNeverForwarded | src/outlook/listener.js:62-65 | an id the cache reports as processed is never forwarded |
| OutlookListener.ForwardedAtMostOnce | src/outlook/listener.js:59-117 | within one run, each id is forwarded at most once |
| OutlookListener.ForwardRespectsFilters | src/outlook/listener.js:59-72 | only non-draft items received at or after the threshold are forwarded |
| OutlookListener.FailedForwardLeftUnmarked | src/outlook/listener.js:106-113 | a refused item is the last call, and its id is not marked |
| OutlookListener.DeliveredWereAccepted | src/outlook/listener.js:106-115 | every call before a failed last one was accepted by the webhook |
| OutlookListener.DeliveredAreMarked | src/outlook/listener.js:115 | every delivered item ends the run marked with the run's clock |
| OutlookListener.StampSurvives | src/outlook/listener.js:35-54 | an entry stamped with the run's clock keeps that stamp to the end of the run |
| OutlookListener.RedeliveryWithinTtlSuppressed | src/outlook/listener.js:62-65 | an item delivered once is not forwarded again by a later run within 24 h |
| OutlookListener.PaginationFollowsNextLinks | src/outlook/listener.js:134-163 | the poll requests the start link, then exactly each page's next link, in order |
| OutlookListener.PaginationKeepsLastDeltaLink | src/outlook/listener.js:159-162 | the delta link kept is that of the last page that carried one |
| OutlookListener.NoLaterDeltaLink | src/outlook/listener.js:160-166 | when no page carries a delta link, none is kept and the stored link stays in use |
| OutlookListener.FailedItemBehindSavedDeltaLink | src/outlook/listener.js:165-172 | when a forward fails, the new delta link is already installed (and saved when the store accepted it) while the failed item is unmarked |
| OutlookListener.LostItemExample | src/outlook/listener.js:165-172 | a refused item "m1" is never forwarded again once the next poll starts from the saved delta link |
| OutlookListener.OutlookSleeps | src/outlook/listener.js:190-222 | one sleep per pass of the polling loop |
| OutlookListener.OutlookResetAfterCompletion | src/outlook/listener.js:213-214 | a completed cycle sleeps 30 s and resets the counter, even when processing failed, so the next failure sleeps 5 s |
| OutlookListener.OutlookFailuresBackOff | src/outlook/listener.js:215-221 | consecutive thrown cycles sleep ReconnectDelay(a), ReconnectDelay(a+1), ... |
| OutlookListener.ListenToOutlookInbox | src/outlook/listener.js:177-224 | when the configuration is missing nothing happens and nothing changes; otherwise the cycle outcomes, forwarded items, delta links and cache are those of `Supervise` (`CycleRun` pass after pass), and the sleeps are those `OutlookSleeps` gives for those outcomes |
| OutlookListener.FailedPollsChangeNothing | src/outlook/listener.js:198-221 | passes whose first request fails all throw, forward nothing and leave the delta links and the cache unchanged |
| OutlookListener.FailedPollsBackOff | src/outlook/listener.js:190-221 | from a fresh start, the k-th of a run of failed polls sleeps ReconnectDelay(k) |
| QuotedPrintable.Utf8Char | src/smtp/send.js:98 | a character takes 1 to 4 UTF-8 bytes, one exactly for ASCII, and a multi-byte encoding has every byte at or above 0x80 |
| QuotedPrintable.Utf8Encode | src/smtp/send.js:98 | the UTF-8 encoding is at least as long as the text |
| QuotedPrintable.Utf8CharRoundTrip | src/smtp/send.js:98 | the bytes of a character decode back to its scalar value, with well-formed lead and continuation bytes |
| QuotedPrintable.AsciiIsItsOwnUtf8 | src/smtp/send.js:98 | ASCII text encodes byte for byte as its code points |
| QuotedPrintable.QuotedPrintableEncode | src/smtp/send.js:97-108 | the byte loop produces the reference encoding of the text's UTF-8 bytes |
| QuotedPrintable.DecodeEncode | src/imap/draft.js:63-68 | decoding `=XX` escapes and literal characters recovers every encoded byte sequence exactly |
| QuotedPrintable.EncodeByteShape | src/smtp/send.js:101-105 | a byte is written as itself exactly when it is printable ASCII other than `=`, a space or a tab; otherwise as `=` and two hex digits that read back as the byte |
| QuotedPrintable.EncodedLength | src/smtp/send.js:97-108 | the output length is one per literal byte plus three per escaped byte |
| QuotedPrintable.EncodedIsSafe | src/imap/draft.js:60-71 | the output holds only printable ASCII and tabs, with no CR or LF, so it is a single line |
| QuotedPrintable.NonAsciiAlwaysEscaped | src/smtp/send.js:103-105 | every UTF-8 byte of a non-ASCII character is escaped |
| QuotedPrintable.HighBytesAllEscaped | src/imap/draft.js:66-67 | bytes at or above 0x80 are always escaped |
| MimeLines.SplitJoin | src/smtp/send.js:94 | splitting a CRLF join of CR-free lines, followed by CRLF and more text, at every CRLF gives the lines back before the pieces of the rest |
| MimeLines.AssembleParses | src/smtp/send.js:94 | with non-empty CR-free headers and a CR-free body, a reader recovers exactly the headers and the body |
| SmtpSend.MakeMailOptions | src/smtp/send.js:18-32 | `inReplyTo` and `references` are present exactly when given non-empty, with the given values |
| SmtpSend.Lines | src/smtp/send.js:73-82 | each header line is its name followed by its value |
| SmtpSend.FixedHeaderNamesFacts | src/smtp/send.js:73-82 | the eight fixed names are non-empty and CR-free, and none begins like a reply header |
| SmtpSend.EmailHeaderLayout | src/smtp/send.js:73-90 | From, To, Subject, Date, Message-ID, MIME-Version, Content-Type and Content-Transfer-Encoding come first, in order; the header count is 8 plus one per reply field given |
| SmtpSend.ReplyHeadersOnlyWhenGiven | src/smtp/send.js:84-90 | an `In-Reply-To` line appears exactly when given, at position 8; a `References` line appears exactly when given, as the last line |
| SmtpSend.EncodedBodyHasNoCr | src/smtp/send.js:92 | the encoded body never holds a CR |
| SmtpSend.RawEmailReadsBack | src/smtp/send.js:69-95 | with CR-free fields, the raw message reads back as its header lines and a body that decodes to the html's UTF-8 bytes |
| SmtpSend.SendEmail | src/smtp/send.js:4-67 | TLS exactly on port 465; the minted Message-ID; the `appendToSentFolder` call exactly after a delivered send with a folder, with the message flagged `\Seen`; a transport error, or an error thrown by that call's connect or append, propagates, and otherwise the transporter's report is returned |
| SmtpSend.AppendFailureAfterDelivery | src/smtp/send.js:36-41 | an append failure is reported as an error although the mail was already handed to the transport |
| SmtpSend.MessageIdShape | src/smtp/send.js:16 | the minted id is `<`, then the stamp, `.`, the random part, `@` and the host, then `>` |
| ImapDraft.BuildRawDraft | src/imap/draft.js:40-58 | the draft is the raw email with no reply fields and the Message-ID host `draft` |
| ImapDraft.DraftReadsBack | src/imap/draft.js:44-57 | a draft reads back as exactly its eight fixed header lines and a body that decodes to the html's bytes |
| ImapDraft.CreateDraft | src/imap/draft.js:3-38 | a connect error is rethrown with no append; otherwise the draft is appended with `\Draft`; success is exactly a successful append, with the append's uid and the folder path; an append error is rethrown |
| ImapResolve.StripAngles | src/imap/resolve.js:38 | the result holds no `<` or `>` and is no longer than the input |
| ImapResolve.StripAnglesKeepsPlainText | src/imap/resolve.js:38 | text without brackets is unchanged, so stripping is idempotent |
| ImapResolve.StripAnglesConcat | src/imap/resolve.js:59 | stripping distributes over concatenation |
| ImapResolve.MintedIdResolves | src/imap/resolve.js:59-63 | an id minted as `<stamp.random@host>` normalises to `stamp.random@host` |
| ImapResolve.FirstMatchIs | src/imap/resolve.js:55-65 | the UID of the first message in the batch whose non-empty stripped id equals the target, or None when none does |
| ImapResolve.ListFolders | src/imap/resolve.js:4-15 | the mailbox paths, one per listed mailbox, in list order |
| ImapResolve.FirstMatchIn | src/imap/resolve.js:55-65 | the loop over one batch returns its first match |
| ImapResolve.FindMailbox | src/imap/resolve.js:28-32 | the folder is found exactly when it is one of the listed paths |
| ImapResolve.ScanFolder | src/imap/resolve.js:48-68 | 500-wide sequence batches from 1; complete with no match in any batch when nothing is found; otherwise the UID found is the first match of the last batch fetched, and no batch before it holds a match |
| ImapResolve.ResolveUid | src/imap/resolve.js:17-79 | returns the reference result: `Mailbox not found`, `Message-ID not found` for an empty folder or no match, otherwise the first match in scan order: the first match of the last batch fetched, with no match in any earlier batch; a `Message-ID not found` after a scan has walked every sequence number without a match |
| ImapResolve.ResolveAcceptsListedFolders | src/imap/resolve.js:30-32 | the resolver rejects a folder exactly when `listFolders` would not report it |
| ImapResolve.ScanFindsOnlyMatches | src/imap/resolve.js:59-63 | any UID found belongs to a fetched message whose envelope id matches |
| ImapResolve.EmptyTargetNeverFound | src/imap/resolve.js:61 | a Message-ID that strips to nothing is never found |
| OutlookMove.FindFolder | src/outlook/move.js:11-15 | the folder at the first index whose folder matches by lowered display name or by id (every earlier folder fails the test), or None exactly when none matches |
| OutlookMove.ChildFoldersMembers | src/outlook/move.js:18-27 | the collected children are exactly the folders listed under some parent whose request succeeded |
| OutlookMove.ChildFoldersConcat | src/outlook/move.js:18-27 | children are collected parent by parent in the parents' order: the collection over `a + b` is that over `a` followed by that over `b` |
| OutlookMove.ChildFoldersOne | src/outlook/move.js:18-27 | one parent contributes its listed children in the listing's order, or nothing when its request threw or had no `value` |
| OutlookMove.CollectChildFolders | src/outlook/move.js:18-27 | the loop requests each parent's children in order and collects the reference list |
| OutlookMove.ResolveFolderId | src/outlook/move.js:3-40 | returns the reference folder id; child listings are requested, one per top-level folder, only when no top-level folder matches |
| OutlookMove.FolderIdChoice | src/outlook/move.js:9-39 | `Could not list mail folders` exactly without a listing; a top-level match always wins, and it is the first matching top-level folder; without one, the id is that of the first matching collected child; any id returned belongs to a matching top-level or child folder; `Folder "<name>" not found` exactly when nothing matches |
| OutlookMove.FindFolderIgnoresCase | src/outlook/move.js:11-15 | two names with the same lowered form find the same folder when no id equals either |
| OutlookMove.FolderIdIgnoresCase | src/outlook/move.js:29-33 | two names with the same lowered form resolve to the same folder when no id equals either |
| OutlookMove.ChildLookups | src/outlook/move.js:17-27 | child listings are requested only when there is a listing and no top-level folder matches |
| OutlookMove.MoveOutlookEmail | src/outlook/move.js:42-83 | no id: an error with no request. Otherwise the patches come first; without a folder the result is `{true, null, null}`; with one, the top-level `mailFolders` listing comes next, then any child listings, and the move to the resolved id is the last request and `newId` is the response id or null; a lookup error is returned with no move |
| OutlookMove.PatchesOnlyForBooleans | src/outlook/move.js:47-63 | an `isRead` patch exactly when `mark_as_seen` is a boolean, carrying it; a flag patch exactly when `flagged` is a boolean, `flagged` for true and `notFlagged` for false |
| OutlookSend.Trim | src/outlook/send.js:24 | a slice of the input with only white space cut off at both ends, and neither starting nor ending with white space |
| OutlookSend.SplitComma | src/outlook/send.js:23 | at least one piece, none holding a comma |
| OutlookSend.Recipients | src/outlook/send.js:23-25 | one recipient per comma-separated piece of `to`, trimmed, in order |
| OutlookSend.SplitCount | src/outlook/send.js:23 | there is one piece more than there are commas |
| OutlookSend.JoinSplit | src/outlook/send.js:23 | joining the pieces with commas gives the original text back |
| OutlookSend.SplitJoin | src/outlook/send.js:71-73 | splitting a comma join of comma-free pieces gives the pieces back |
| OutlookSend.TrimKeepsTrimmed | src/outlook/send.js:24 | text that starts and ends with non-space is its own trim |
| OutlookSend.TrimIdempotent | src/outlook/send.js:72 | trimming twice is trimming once |
| OutlookSend.RecipientsOfJoin | src/outlook/send.js:71-73 | a list of addresses written as one comma-separated `to` comes back as the same addresses, trimmed |
| OutlookSend.ToGraph | src/outlook/send.js:14-19 | one file attachment per item, with the same name and bytes, and the content type or `application/octet-stream` |
| OutlookSend.ParseAttachments | src/outlook/send.js:3-20 | [] for a falsy value, a non-object or unparsable text; arrays, object values and parsed JSON are converted item by item; every result is a file attachment with a non-empty content type |
| OutlookSend.JsonTextActsAsParsed | src/outlook/send.js:6-12 | attachments given as JSON text are treated as the parsed value |
| OutlookSend.SendOutlookEmail | src/outlook/send.js:22-60 | a POST to `sendMail` with saveToSentItems, the subject, the HTML body, the sender and one recipient per piece of `to`; attachments and `hasAttachments` only when there are attachments; a Graph error propagates |
| OutlookSend.ReplyOutlookEmail | src/outlook/send.js:62-95 | a POST to `messages/<id>/reply` with only the HTML body, the recipients when `to` is non-empty and the attachments when there are any, never `hasAttachments`; a Graph error propagates |
| OutlookAuth.TokenStep | src/outlook/auth.js:22-46 | a returned token is the account's cache entry; other accounts' entries are untouched; an error leaves the cache unchanged |
| OutlookAuth.TokenCache.constructor | src/outlook/auth.js:3 | the cache starts empty |
| OutlookAuth.TokenCache.GetAccessToken | src/outlook/auth.js:22-46 | the result, the cache afterwards and whether the token service was asked are those of `TokenStep` |
| OutlookAuth.AcquiresIffStale | src/outlook/auth.js:26-34 | the token service is asked exactly when there is no entry with more than 60 s left and the credentials are set |
| OutlookAuth.FreshEntryReused | src/outlook/auth.js:26-28 | an entry with more than 60 s left is returned and the cache is unchanged |
| OutlookAuth.AcquiredTokenStored | src/outlook/auth.js:40-45 | after a successful request, the token is returned and stored with its expiry, or now plus 3600000 ms |
| OutlookAuth.DefaultTokenWindow | src/outlook/auth.js:26-43 | a token stored without an expiry serves every call before now + 3540000 from the cache, and is re-acquired from then on |

## Left out

- Network I/O is not modelled; outcomes are parameters. This covers IMAP connect, lock, idle, fetch, search, append and logout; Graph HTTP requests; nodemailer; mailparser; the cursor store; and the webhook.
- The webhook payload fields (from, to, subject, text, metadata) are not modelled. Only which items are forwarded and in what order is.
- The race between IMAP IDLE and the 30 s timer is not modelled; each wake is one loop iteration. Accounts run concurrently, but the model has one account per run.
- `index.js`, `STARTUP_DELAY_MS`, `mustEnv` and `sleep` are not modelled: they are only used by the service entry point.
- `parseEmailsSince` is not modelled, and neither is date parsing in general: thresholds and dates are integer milliseconds or `None`.
- `normalizeFolderPath` is the identity: the folder is used as given.
- `toLowerCase` is a function parameter.
- `JSON.parse` is a function parameter that returns `None` when it would throw.
- The random parts of Message-IDs and the multipart boundary (unused in the message) are left out.
- Strings are sequences of Unicode scalar values, so lone UTF-16 surrogates (which `Buffer.from` would replace) are not modelled.
- An `undefined` field that a template string would render as "undefined" is not modelled; fields are strings.
- IMAP fetches are assumed to yield their messages in ascending order and to skip UIDs or positions that do not exist.
- ImapListener.ScanFrom: reads each fetched range as UIDs. The source calls imapflow's `fetch` there without the `{ uid: true }` options argument, and imapflow then reads the range as sequence numbers. The commit loop at `src/imap/listener.js:124-129` does pass it. The two readings differ once messages have been expunged. When a range stays within the message count, the source skips qualifying mail. With UIDs 1 to 10 expunged, UIDs 11 to 530 present and all dated after the threshold, and `last_uid` = 12, the source fetches positions 12 to 511, finds UID 22 first and sets `last_uid` to 21, so UIDs 13 to 21 are never forwarded. When a range reaches past the message count, the outcome depends on the server. For example, with UIDs 50 to 100 present and a cursor of 60, the model scans UIDs 60 to 99, while sequence numbers 60 to 99 lie past the 51 messages. The model assumes such positions fetch nothing, so the source rescans from 1. Section 9 of RFC 3501 says a server SHOULD answer BAD to a sequence number above the message count, and on such a server alignment fails instead, whether imapflow then throws or yields nothing. `AlignSkipsOnlyPreThresholdMail` holds for the UID reading only; "## Findings" models the source's reading and proves the in-bounds case.
- ImapListener.ScanFrom: does not return the ranges it fetches. The reference `ScanRanges` describes them, and `ScanRangesBatched` and `ScanRangesEnd` state their shape.
- OutlookListener.DedupCache.MarkProcessed: reads the clock once, where the source reads it separately for the stamp and the sweep.
- OutlookAuth.TokenStep: reads the clock once, where the source reads it separately for the freshness test and the default expiry.
- OutlookListener.OutlookAccount.PollDelta: does not model the distinction between full-URL and relative links, nor the token lookup made for full URLs. Both are one request whose response is given.
- OutlookListener.ProcessRun: reads the clock once per cycle, where the source reads it afresh at every `isProcessed` and `markProcessed`, after awaited requests. So stamps within one cycle are all equal, and an entry cannot expire part-way through a cycle. `DeliveredAreMarked`, `StampSurvives` and `ForwardedAtMostOnce` hold under that single clock.
- OutlookListener.ProcessRun: models a thrown attachment fetch but not the attachment list it returns. That list is modelled on its own by `FetchedAttachments`.
- OutlookMove.MoveOutlookEmail: assumes the PATCH and move requests succeed. A failing Graph request, including the folder listing itself throwing, would propagate and is not modelled; a listing without `value` is modelled.
- OutlookMove.FolderMatches: does not model a folder without a `displayName`, on which `toLowerCase` throws.
- OutlookSend.SendOutlookEmail: does not model a missing `to`, on which `split` throws.
- OutlookSend.ParseAttachments: does not model a `null` item, on which reading `filename` throws, nor a truthy non-string `contentType`, which would pass through.
- ImapResolve.ResolveUid: does not model errors thrown by connect, `mailboxOpen` or fetch. It also leaves out `client.close`.
- SmtpSend.SendEmail: does not model nodemailer's own message formatting. The model states the mail options handed to it and the copy appended to the Sent folder.
- QuotedPrintable.QuotedPrintableEncode: like the source, inserts no soft line breaks (rule 5 of section 6.7 of RFC 2045) and does not treat trailing white space specially (rule 3).

## Findings

| source | as written | input that shows it | evidently intended | confidence | as-written member | corrected member |
|---|---|---|---|---|---|---|
| src/imap/listener.js:39-42 | `scanFrom` calls `client.fetch(range, { uid: true, internalDate: true })` without the `{ uid: true }` options argument, so imapflow reads `cursor:end` as sequence numbers, while the commit loop at lines 124-129 passes it | UIDs 1 to 10 expunged, UIDs 11 to 530 present (520 messages) and dated at the threshold, `last_uid` = 12: the first range 12:511 lies within the 520 messages, position 12 is UID 22, so the cursor becomes 21 and UIDs 13 to 21 are never forwarded | the range is read as UIDs, so alignment stops below the first qualifying UID at or after the cursor and never skips qualifying mail | medium: rests on imapflow's documented `fetch(range, query, options)`; not executed | ImapListener.AlignedLastUidAsWritten, ImapListener.SequenceReadingSkipsMail | ImapListener.AlignedLastUid, ImapListener.AlignSkipsOnlyPreThresholdMail |
