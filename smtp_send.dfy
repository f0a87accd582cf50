/**
 * Sending through SMTP and filing a copy in the Sent folder: the message
 * options handed to the transport, the raw copy appended over IMAP, and
 * the order of the two network steps. The transport, the IMAP append, the
 * clock and the random part of the Message-ID are parameters.
 */
module SmtpSend {
  import opened Wrappers
  import opened QuotedPrintable
  import opened MimeLines

  /** A JavaScript string in a truthiness test: "" stands for absent. */
  function Truthy(s: string): Option<string>
  {
    if s == "" then None else Some(s)
  }

  /** The `mailOptions` object: the reply fields exist only when given. */
  datatype MailOptions = MailOptions(from: string, to: string, subject: string, html: string, messageId: string,
                                     inReplyTo: Option<string>, references: Option<string>)

  function MakeMailOptions(from: string, to: string, subject: string, html: string, messageId: string,
                           inReplyTo: string, references: string): (o: MailOptions)
    ensures o.inReplyTo.Some? <==> inReplyTo != ""
    ensures o.references.Some? <==> references != ""
    ensures o.inReplyTo.Some? ==> o.inReplyTo.value == inReplyTo
    ensures o.references.Some? ==> o.references.value == references
  {
    MailOptions(from, to, subject, html, messageId, Truthy(inReplyTo), Truthy(references))
  }

  /** `<${Date.now()}.${random}@${host}>`, with the clock and random parts already written out. */
  function MessageId(stamp: string, random: string, host: string): string
  {
    "<" + stamp + "." + random + "@" + host + ">"
  }

  const FixedHeaderNames: seq<string> :=
    ["From: ", "To: ", "Subject: ", "Date: ", "Message-ID: ", "MIME-Version: ", "Content-Type: ",
     "Content-Transfer-Encoding: "]

  /** Header lines: each name (with its `: `) followed by its value. */
  function Lines(names: seq<string>, values: seq<string>): (r: seq<string>)
    requires |names| == |values|
    ensures |r| == |names| && forall i :: 0 <= i < |r| ==> r[i] == names[i] + values[i]
  {
    if names == [] then [] else [names[0] + values[0]] + Lines(names[1..], values[1..])
  }

  /** The eight fixed header lines, with `date` the `toUTCString()` text. */
  function FixedHeaders(from: string, to: string, subject: string, date: string, messageId: string): seq<string>
  {
    Lines(FixedHeaderNames,
          [from, to, subject, date, messageId, "1.0", "text/html; charset=utf-8", "quoted-printable"])
  }

  /** Facts about the eight names: none holds a CR, and none starts like a reply header. */
  lemma FixedHeaderNamesFacts()
    ensures forall i :: 0 <= i < 8 ==> |FixedHeaderNames[i]| > 0 && NoCr(FixedHeaderNames[i])
    ensures forall i :: 0 <= i < 8 ==> FixedHeaderNames[i][0] != 'I' && FixedHeaderNames[i][0] != 'R'
  {
    assert NoCr("From: ") && NoCr("To: ") && NoCr("Subject: ") && NoCr("Date: ");
    assert NoCr("Message-ID: ") && NoCr("MIME-Version: ") && NoCr("Content-Type: ");
    assert NoCr("Content-Transfer-Encoding: ");
  }

  function EmailHeaders(o: MailOptions, date: string): seq<string>
  {
    FixedHeaders(o.from, o.to, o.subject, date, o.messageId)
    + (if o.inReplyTo.Some? then ["In-Reply-To: " + o.inReplyTo.value] else [])
    + (if o.references.Some? then ["References: " + o.references.value] else [])
  }

  /** `buildRawEmail` */
  function BuildRawEmail(o: MailOptions, date: string): string
  {
    Assemble(EmailHeaders(o, date), Encode(Utf8Encode(o.html)))
  }

  predicate StartsWith(s: string, prefix: string)
  {
    |prefix| <= |s| && s[..|prefix|] == prefix
  }

  /**
   * The header block: the eight fixed lines in their order, then
   * In-Reply-To, then References, each present exactly when its option is.
   */
  lemma EmailHeaderLayout(o: MailOptions, date: string)
    ensures var h := EmailHeaders(o, date);
            && |h| == 8 + (if o.inReplyTo.Some? then 1 else 0) + (if o.references.Some? then 1 else 0)
            && (forall i :: 0 <= i < 8 ==> StartsWith(h[i], FixedHeaderNames[i]))
            && (o.inReplyTo.Some? ==> h[8] == "In-Reply-To: " + o.inReplyTo.value)
            && (o.references.Some? ==> h[|h| - 1] == "References: " + o.references.value)
  {
    var h := EmailHeaders(o, date);
    forall i | 0 <= i < 8 ensures StartsWith(h[i], FixedHeaderNames[i]) {
      assert h[i] == FixedHeaders(o.from, o.to, o.subject, date, o.messageId)[i];
    }
  }

  /** A reply header line appears in the copy exactly when the caller passed a non-empty value. */
  lemma ReplyHeadersOnlyWhenGiven(from: string, to: string, subject: string, html: string, messageId: string,
                                  inReplyTo: string, references: string, date: string)
    ensures var h := EmailHeaders(MakeMailOptions(from, to, subject, html, messageId, inReplyTo, references), date);
            && ((exists i :: 0 <= i < |h| && StartsWith(h[i], "In-Reply-To: ")) <==> inReplyTo != "")
            && ((exists i :: 0 <= i < |h| && StartsWith(h[i], "References: ")) <==> references != "")
  {
    var o := MakeMailOptions(from, to, subject, html, messageId, inReplyTo, references);
    var h := EmailHeaders(o, date);
    var fixed := FixedHeaders(o.from, o.to, o.subject, date, o.messageId);
    FixedHeaderNamesFacts();
    forall i | 0 <= i < |h|
      ensures StartsWith(h[i], "In-Reply-To: ") <==> inReplyTo != "" && i == 8
      ensures StartsWith(h[i], "References: ") <==> references != "" && i == |h| - 1
    {
      if i < 8 {
        assert h[i] == fixed[i];
        assert h[i][0] == FixedHeaderNames[i][0];
      } else if i == 8 && inReplyTo != "" {
        assert h[i] == "In-Reply-To: " + inReplyTo;
        assert h[i][0] == 'I';
      } else {
        assert h[i] == "References: " + references;
        assert h[i][0] == 'R';
      }
    }
    if inReplyTo != "" {
      assert StartsWith(h[8], "In-Reply-To: ");
    }
    if references != "" {
      assert StartsWith(h[|h| - 1], "References: ");
    }
  }

  /** The encoded body never holds a CR. */
  lemma EncodedBodyHasNoCr(html: string)
    ensures NoCr(Encode(Utf8Encode(html)))
  {
    EncodedIsSafe(Utf8Encode(html));
  }

  /**
   * The copy reads back: a reader of the appended text finds exactly the
   * header lines and the encoded body, and decoding the body gives the
   * UTF-8 bytes of the html. It needs the caller's fields to hold no CR; a
   * CR in, say, the subject would end that header line early.
   */
  lemma RawEmailReadsBack(o: MailOptions, date: string)
    requires NoCr(o.from) && NoCr(o.to) && NoCr(o.subject) && NoCr(date) && NoCr(o.messageId)
    requires o.inReplyTo.Some? ==> NoCr(o.inReplyTo.value)
    requires o.references.Some? ==> NoCr(o.references.value)
    ensures ParseRaw(BuildRawEmail(o, date)) == Some((EmailHeaders(o, date), Encode(Utf8Encode(o.html))))
    ensures Decode(ParseRaw(BuildRawEmail(o, date)).value.1) == Some(Utf8Encode(o.html))
  {
    var h := EmailHeaders(o, date);
    forall k | 0 <= k < |h| ensures h[k] != "" && NoCr(h[k]) {
      PrefixedNoCr(h, k, o, date);
    }
    EncodedBodyHasNoCr(o.html);
    AssembleParses(h, Encode(Utf8Encode(o.html)));
    DecodeEncode(Utf8Encode(o.html));
  }

  lemma PrefixedNoCr(h: seq<string>, k: int, o: MailOptions, date: string)
    requires h == EmailHeaders(o, date) && 0 <= k < |h|
    requires NoCr(o.from) && NoCr(o.to) && NoCr(o.subject) && NoCr(date) && NoCr(o.messageId)
    requires o.inReplyTo.Some? ==> NoCr(o.inReplyTo.value)
    requires o.references.Some? ==> NoCr(o.references.value)
    ensures h[k] != "" && NoCr(h[k])
  {
    var fixed := FixedHeaders(o.from, o.to, o.subject, date, o.messageId);
    if k < 8 {
      FixedHeaderNamesFacts();
      var values := [o.from, o.to, o.subject, date, o.messageId, "1.0", "text/html; charset=utf-8", "quoted-printable"];
      assert h[k] == FixedHeaderNames[k] + values[k];
      assert NoCr("1.0") && NoCr("text/html; charset=utf-8") && NoCr("quoted-printable");
      NoCrConcat(FixedHeaderNames[k], values[k]);
    } else if k == 8 && o.inReplyTo.Some? {
      assert h[k] == "In-Reply-To: " + o.inReplyTo.value;
      NoCrConcat("In-Reply-To: ", o.inReplyTo.value);
    } else {
      assert h[k] == "References: " + o.references.value;
      NoCrConcat("References: ", o.references.value);
    }
  }

  // ---------------------------------------------------------------------
  // sendEmail

  datatype SmtpAccount = SmtpAccount(host: string, port: int, username: string, secret: string)

  /** The transport settings: implicit TLS exactly on port 465. */
  datatype Transport = Transport(host: string, port: int, secure: bool, user: string, pass: string)

  /** An IMAP append: target folder, raw message, flags. */
  datatype Append = Append(folder: string, raw: string, flags: seq<string>)

  datatype SendResult = SendResult(success: bool, messageId: string, response: string)

  /** Where `sendEmail` threw: in the transport, or in the Sent-folder append after the mail went out. */
  datatype SendError = TransportFailed(message: string) | AppendFailed(message: string)

  /**
   * What `sendEmail` did: the transport used, the mail handed to it, the
   * `appendToSentFolder` call it made (Some even when that call's connect
   * throws and nothing is appended), and its result.
   */
  datatype SendRun = SendRun(transport: Transport, sent: MailOptions, append: Option<Append>,
                             result: Result<SendResult, SendError>)

  /** The transporter's report for a delivered message: its Message-ID and the server response. */
  datatype SentInfo = SentInfo(messageId: string, response: string)

  /**
   * `sendEmail`: the transport's outcome and the outcome of the whole
   * `appendToSentFolder` call (None when it succeeded, else the message of
   * the error its connect or its append threw) are parameters.
   */
  function SendEmail(account: SmtpAccount, from: string, to: string, subject: string, html: string,
                     inReplyTo: string, references: string, folderPath: string,
                     stamp: string, random: string, date: string,
                     transportOutcome: Result<SentInfo, string>, appendError: Option<string>): (r: SendRun)
    ensures r.transport.secure <==> account.port == 465
    ensures r.sent.messageId == MessageId(stamp, random, account.host)
    ensures r.append.Some? <==> transportOutcome.Ok? && folderPath != ""
    ensures r.append.Some? ==> r.append.value == Append(folderPath, BuildRawEmail(r.sent, date), ["\\Seen"])
    ensures transportOutcome.Err? ==> r.result == Err(TransportFailed(transportOutcome.error))
    ensures r.result.Ok? <==> transportOutcome.Ok? && (folderPath == "" || appendError.None?)
    ensures r.result.Ok? ==> r.result.value == SendResult(true, transportOutcome.value.messageId, transportOutcome.value.response)
    ensures r.result.Err? && r.result.error.AppendFailed? <==> r.append.Some? && appendError.Some?
    ensures r.result.Err? && r.result.error.AppendFailed? ==> r.result.error.message == appendError.value
  {
    var transport := Transport(account.host, account.port, account.port == 465, account.username, account.secret);
    var options := MakeMailOptions(from, to, subject, html, MessageId(stamp, random, account.host), inReplyTo, references);
    match transportOutcome
    case Err(e) => SendRun(transport, options, None, Err(TransportFailed(e)))
    case Ok(info) =>
      var append := if folderPath != "" then Some(Append(folderPath, BuildRawEmail(options, date), ["\\Seen"])) else None;
      if append.Some? && appendError.Some? then SendRun(transport, options, append, Err(AppendFailed(appendError.value)))
      else SendRun(transport, options, append, Ok(SendResult(true, info.messageId, info.response)))
  }

  /**
   * The ordering the caller sees: an append failure is reported as a failure
   * of the whole call, although the message has already been delivered.
   */
  lemma AppendFailureAfterDelivery(account: SmtpAccount, from: string, to: string, subject: string, html: string,
                                   inReplyTo: string, references: string, folderPath: string,
                                   stamp: string, random: string, date: string, info: SentInfo, e: string)
    requires folderPath != ""
    ensures var r := SendEmail(account, from, to, subject, html, inReplyTo, references, folderPath, stamp, random, date,
                               Ok(info), Some(e));
            r.result.Err? && r.result.error.AppendFailed? && r.append.Some?
  {
  }

  /** The Message-ID the worker mints is the stamp, the random part and the host inside angle brackets. */
  lemma MessageIdShape(stamp: string, random: string, host: string)
    ensures var id := MessageId(stamp, random, host);
            && |id| == |stamp| + |random| + |host| + 4
            && id[0] == '<' && id[|id| - 1] == '>'
            && id[1..|id| - 1] == stamp + "." + random + "@" + host
  {
  }
}
