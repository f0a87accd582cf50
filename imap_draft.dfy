/**
 * Saving a draft over IMAP: the raw draft text and the result of
 * `createDraft`. The draft builder has its own copy of the body encoder in
 * the source; the model uses the one encoder for both.
 */
module ImapDraft {
  import opened Wrappers
  import opened QuotedPrintable
  import opened MimeLines
  import opened SmtpSend

  /** The draft's Message-ID: the clock and random parts, and the host `draft`. */
  function DraftMessageId(stamp: string, random: string): string
  {
    MessageId(stamp, random, "draft")
  }

  /** `buildRawDraft`: the eight fixed headers, the blank line, the encoded html. */
  function BuildRawDraft(from: string, to: string, subject: string, html: string, date: string,
                         stamp: string, random: string): (raw: string)
    ensures raw == BuildRawEmail(MailOptions(from, to, subject, html, DraftMessageId(stamp, random), None, None), date)
  {
    var headers := FixedHeaders(from, to, subject, date, DraftMessageId(stamp, random));
    assert headers + [] + [] == headers;
    Assemble(headers, Encode(Utf8Encode(html)))
  }

  /** A draft reads back as its eight header lines and the encoded html, which decodes to the html's bytes. */
  lemma DraftReadsBack(from: string, to: string, subject: string, html: string, date: string,
                       stamp: string, random: string)
    requires NoCr(from) && NoCr(to) && NoCr(subject) && NoCr(date) && NoCr(stamp) && NoCr(random)
    ensures var parsed := ParseRaw(BuildRawDraft(from, to, subject, html, date, stamp, random));
            && parsed.Some?
            && |parsed.value.0| == 8
            && parsed.value.0 == FixedHeaders(from, to, subject, date, DraftMessageId(stamp, random))
            && Decode(parsed.value.1) == Some(Utf8Encode(html))
  {
    var id := DraftMessageId(stamp, random);
    assert NoCr(id) by {
      NoCrConcat("<", stamp);
      NoCrConcat("<" + stamp, ".");
      NoCrConcat("<" + stamp + ".", random);
      NoCrConcat("<" + stamp + "." + random, "@");
      NoCrConcat("<" + stamp + "." + random + "@", "draft");
      NoCrConcat("<" + stamp + "." + random + "@" + "draft", ">");
    }
    var o := MailOptions(from, to, subject, html, id, None, None);
    RawEmailReadsBack(o, date);
  }

  /** What `createDraft` returns on success. */
  datatype DraftResult = DraftResult(success: bool, uid: Option<int>, folder: string)

  /** What `createDraft` did: the append it attempted (if it connected) and its result or the error it rethrew. */
  datatype DraftRun = DraftRun(append: Option<Append>, result: Result<DraftResult, string>)

  /**
   * `createDraft`: connect, build, append with the `\Draft` flag. A connect
   * or append error is rethrown unchanged; a logout error is swallowed and
   * so does not appear. `appendOutcome` holds the uid the server reported
   * (None when it reported none) or the error message.
   */
  function CreateDraft(from: string, to: string, subject: string, html: string, folderPath: string,
                       date: string, stamp: string, random: string,
                       connectError: Option<string>, appendOutcome: Result<Option<int>, string>): (r: DraftRun)
    ensures connectError.Some? ==> r == DraftRun(None, Err(connectError.value))
    ensures connectError.None? ==>
              r.append == Some(Append(folderPath, BuildRawDraft(from, to, subject, html, date, stamp, random), ["\\Draft"]))
    ensures r.result.Ok? <==> connectError.None? && appendOutcome.Ok?
    ensures r.result.Ok? ==> r.result.value == DraftResult(true, appendOutcome.value, folderPath)
    ensures connectError.None? && appendOutcome.Err? ==> r.result == Err(appendOutcome.error)
  {
    if connectError.Some? then DraftRun(None, Err(connectError.value))
    else
      var append := Append(folderPath, BuildRawDraft(from, to, subject, html, date, stamp, random), ["\\Draft"]);
      match appendOutcome
      case Err(e) => DraftRun(Some(append), Err(e))
      case Ok(uid) => DraftRun(Some(append), Ok(DraftResult(true, uid, folderPath)))
  }
}
