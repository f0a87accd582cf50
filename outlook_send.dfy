/**
 * Sending and replying through Graph: the recipient list cut from the
 * comma-separated `to`, the attachment list normalised to Graph file
 * attachments, and the message objects posted to `sendMail` and `reply`.
 * `JSON.parse` and the Graph request are parameters.
 */
module OutlookSend {
  import opened Wrappers

  // ----- recipients: `to.split(',').map(addr => addr.trim())` -----

  /** The characters `String.prototype.trim` strips: ECMAScript WhiteSpace and LineTerminator. */
  predicate IsJsSpace(c: char)
  {
    var n := c as int;
    n == 0x09 || n == 0x0A || n == 0x0B || n == 0x0C || n == 0x0D || n == 0x20 || n == 0xA0
    || n == 0x1680 || (0x2000 <= n <= 0x200A) || n == 0x2028 || n == 0x2029 || n == 0x202F
    || n == 0x205F || n == 0x3000 || n == 0xFEFF
  }

  /** How many characters `trim` removes from the front. */
  function LeadingSpaces(s: string): (n: nat)
    ensures n <= |s|
    ensures forall k :: 0 <= k < n ==> IsJsSpace(s[k])
    ensures n < |s| ==> !IsJsSpace(s[n])
  {
    if s == [] || !IsJsSpace(s[0]) then 0 else 1 + LeadingSpaces(s[1..])
  }

  /** How many characters `trim` removes from the back. */
  function TrailingSpaces(s: string): (n: nat)
    ensures n <= |s|
    ensures forall k :: |s| - n <= k < |s| ==> IsJsSpace(s[k])
    ensures n < |s| ==> !IsJsSpace(s[|s| - n - 1])
  {
    if s == [] || !IsJsSpace(s[|s| - 1]) then 0 else 1 + TrailingSpaces(s[..|s| - 1])
  }

  /** `s.trim()`: the longest slice of s that neither starts nor ends with white space. */
  function Trim(s: string): (r: string)
    ensures exists i, j :: 0 <= i <= j <= |s| && r == s[i..j]
                           && (forall k :: 0 <= k < i ==> IsJsSpace(s[k]))
                           && (forall k :: j <= k < |s| ==> IsJsSpace(s[k]))
    ensures r != [] ==> !IsJsSpace(r[0]) && !IsJsSpace(r[|r| - 1])
  {
    var i := LeadingSpaces(s);
    if i == |s| then
      assert s[|s|..|s|] == [];
      []
    else
      var j := |s| - TrailingSpaces(s);
      s[i..j]
  }

  /** Where the first comma of s is. */
  function FirstComma(s: string): (r: Option<nat>)
    ensures r.Some? ==> r.value < |s| && s[r.value] == ',' && ',' !in s[..r.value]
    ensures r.None? ==> ',' !in s
  {
    if s == [] then None
    else if s[0] == ',' then Some(0)
    else match FirstComma(s[1..])
      case None => None
      case Some(i) =>
        assert s[..i + 1] == [s[0]] + s[1..][..i];
        Some(i + 1)
  }

  /** `s.split(',')`: the pieces between the commas. */
  function SplitComma(s: string): (r: seq<string>)
    ensures |r| >= 1
    ensures forall k :: 0 <= k < |r| ==> ',' !in r[k]
    decreases |s|
  {
    match FirstComma(s)
    case None => [s]
    case Some(i) => [s[..i]] + SplitComma(s[i + 1..])
  }

  /** `pieces.join(',')` */
  function JoinComma(pieces: seq<string>): string
  {
    if pieces == [] then ""
    else if |pieces| == 1 then pieces[0]
    else pieces[0] + "," + JoinComma(pieces[1..])
  }

  /** The recipient addresses, in order: one per piece of `to`, trimmed. */
  function Recipients(to: string): (r: seq<string>)
    ensures |r| == |SplitComma(to)|
    ensures forall k :: 0 <= k < |r| ==> r[k] == Trim(SplitComma(to)[k])
  {
    var pieces := SplitComma(to);
    seq(|pieces|, k requires 0 <= k < |pieces| => Trim(pieces[k]))
  }

  /** There is one piece more than there are commas. */
  lemma {:induction false} SplitCount(s: string)
    ensures |SplitComma(s)| == multiset(s)[','] + 1
    decreases |s|
  {
    match FirstComma(s)
    case None =>
    case Some(i) =>
      SplitCount(s[i + 1..]);
      assert s == s[..i] + [','] + s[i + 1..];
      assert multiset(s) == multiset(s[..i]) + multiset{','} + multiset(s[i + 1..]);
  }

  /** Joining the split pieces gives back the text. */
  lemma {:induction false} JoinSplit(s: string)
    ensures JoinComma(SplitComma(s)) == s
    decreases |s|
  {
    match FirstComma(s)
    case None =>
    case Some(i) =>
      var rest := SplitComma(s[i + 1..]);
      var pieces := SplitComma(s);
      assert pieces == [s[..i]] + rest;
      assert pieces[0] == s[..i] && pieces[1..] == rest && |pieces| > 1;
      assert JoinComma(pieces) == s[..i] + "," + JoinComma(rest);
      JoinSplit(s[i + 1..]);
      assert s == s[..i] + [s[i]] + s[i + 1..];
  }

  /** The first comma of `p + "," + rest` when p holds none. */
  lemma {:induction false} FirstCommaAfter(p: string, rest: string)
    requires ',' !in p
    ensures FirstComma(p + "," + rest) == Some(|p|)
    decreases |p|
  {
    if p != [] {
      assert (p + "," + rest)[1..] == p[1..] + "," + rest;
      assert ',' !in p[1..] by {
        assert forall c :: c in p[1..] ==> c in p;
      }
      FirstCommaAfter(p[1..], rest);
    }
  }

  /** Splitting a comma join of comma-free pieces gives back the pieces. */
  lemma {:induction false} SplitJoin(pieces: seq<string>)
    requires |pieces| >= 1
    requires forall k :: 0 <= k < |pieces| ==> ',' !in pieces[k]
    ensures SplitComma(JoinComma(pieces)) == pieces
    decreases |pieces|
  {
    var p := pieces[0];
    if |pieces| > 1 {
      var rest := JoinComma(pieces[1..]);
      var text := p + "," + rest;
      FirstCommaAfter(p, rest);
      assert text[..|p|] == p;
      assert text[|p| + 1..] == rest;
      SplitJoin(pieces[1..]);
      assert pieces == [p] + pieces[1..];
    }
  }

  /** A string that starts and ends with a non-space is its own trim. */
  lemma TrimKeepsTrimmed(s: string)
    requires s != [] ==> !IsJsSpace(s[0]) && !IsJsSpace(s[|s| - 1])
    ensures Trim(s) == s
  {
    if s != [] {
      assert LeadingSpaces(s) == 0;
      assert TrailingSpaces(s) == 0;
      assert s[0..|s|] == s;
    }
  }

  /** Trimming twice is trimming once. */
  lemma TrimIdempotent(s: string)
    ensures Trim(Trim(s)) == Trim(s)
  {
    TrimKeepsTrimmed(Trim(s));
  }

  /**
   * A list of addresses written out as one comma-separated `to` comes back
   * as the same addresses, whatever white space surrounds each of them.
   */
  lemma RecipientsOfJoin(pieces: seq<string>)
    requires |pieces| >= 1
    requires forall k :: 0 <= k < |pieces| ==> ',' !in pieces[k]
    ensures Recipients(JoinComma(pieces)) == seq(|pieces|, k requires 0 <= k < |pieces| => Trim(pieces[k]))
    ensures |Recipients(JoinComma(pieces))| == |pieces|
  {
    SplitJoin(pieces);
  }

  // ----- attachments: `parseAttachments` -----

  /**
   * One item of the caller's attachment list. `contentType` is "" when it is
   * missing or empty; `filename` and `content` are None when missing.
   */
  datatype RawAttachment = RawAttachment(filename: Option<string>, contentType: string, content: Option<string>)

  /**
   * The `attachments` argument, or a value `JSON.parse` returned: a falsy
   * value, a string, an array, any other object (its values in key order),
   * or a truthy value that is not an object.
   */
  datatype AttachmentsArg =
    | Falsy
    | Text(text: string)
    | List(items: seq<RawAttachment>)
    | Record(values: seq<RawAttachment>)
    | OtherScalar

  const FileAttachmentType: string := "#microsoft.graph.fileAttachment"
  const DefaultContentType: string := "application/octet-stream"

  datatype FileAttachment = FileAttachment(odataType: string, name: Option<string>, contentType: string,
                                           contentBytes: Option<string>)

  /** f is the Graph form of a: same name and bytes, the content type or its default. */
  predicate Converted(a: RawAttachment, f: FileAttachment)
  {
    && f.odataType == FileAttachmentType
    && f.name == a.filename
    && f.contentBytes == a.content
    && f.contentType == (if a.contentType != "" then a.contentType else DefaultContentType)
  }

  /** The `map` over the list. */
  function ToGraph(items: seq<RawAttachment>): (r: seq<FileAttachment>)
    ensures |r| == |items|
    ensures forall k :: 0 <= k < |items| ==> Converted(items[k], r[k])
  {
    if items == [] then []
    else
      var a := items[0];
      [FileAttachment(FileAttachmentType, a.filename,
                      if a.contentType != "" then a.contentType else DefaultContentType, a.content)]
      + ToGraph(items[1..])
  }

  /** An array, or an object's values; nothing for anything else. */
  function ListOf(v: AttachmentsArg): seq<RawAttachment>
  {
    match v
    case List(items) => items
    case Record(values) => values
    case _ => []
  }

  /**
   * `parseAttachments`: `parseJson(s)` is what `JSON.parse(s)` returns, or
   * None when it throws.
   */
  function ParseAttachments(arg: AttachmentsArg, parseJson: string -> Option<AttachmentsArg>): (r: seq<FileAttachment>)
    ensures forall k :: 0 <= k < |r| ==> r[k].odataType == FileAttachmentType && r[k].contentType != ""
    ensures arg.Falsy? || arg.OtherScalar? || arg == Text("") ==> r == []
    ensures arg.Text? && arg.text != "" && parseJson(arg.text).None? ==> r == []
    ensures arg.Text? && arg.text != "" && parseJson(arg.text).Some? ==>
              |r| == |ListOf(parseJson(arg.text).value)|
              && forall k :: 0 <= k < |r| ==> Converted(ListOf(parseJson(arg.text).value)[k], r[k])
    ensures arg.List? || arg.Record? ==>
              |r| == |ListOf(arg)| && forall k :: 0 <= k < |r| ==> Converted(ListOf(arg)[k], r[k])
  {
    var parsed :=
      if arg.Text? then (if arg.text == "" then None else parseJson(arg.text))
      else Some(arg);
    match parsed
    case None => []
    case Some(v) => ToGraph(ListOf(v))
  }

  /** An attachment list handed over as JSON text is treated as the list itself. */
  lemma JsonTextActsAsParsed(s: string, v: AttachmentsArg, parseJson: string -> Option<AttachmentsArg>)
    requires s != "" && parseJson(s) == Some(v) && !v.Text?
    ensures ParseAttachments(Text(s), parseJson) == ParseAttachments(v, parseJson)
  {
  }

  // ----- the two requests -----

  datatype Body = Body(contentType: string, content: string)

  /** The Graph message object: fields absent from it are None. */
  datatype OutgoingMessage = OutgoingMessage(
    subject: Option<string>,
    body: Body,
    from: Option<string>,
    toRecipients: Option<seq<string>>,
    attachments: Option<seq<FileAttachment>>,
    hasAttachments: Option<bool>)

  /** A POST to Graph: the path under the API root and the JSON body. */
  datatype GraphPost = GraphPost(path: string, message: OutgoingMessage, saveToSentItems: Option<bool>)

  datatype SendResult = SendResult(success: bool, response: string)

  /** The request made and the result returned, or the Graph error propagated. */
  datatype SendRun = SendRun(post: GraphPost, result: Result<SendResult, string>)

  /**
   * `sendOutlookEmail`: `userPath` is the account's `/users/<email>`,
   * `html` is "" when missing, and `postError` is the error the Graph
   * request throws, if it does.
   */
  method SendOutlookEmail(userPath: string, from: string, to: string, subject: string, html: string,
                          attachments: AttachmentsArg, parseJson: string -> Option<AttachmentsArg>,
                          postError: Option<string>)
    returns (run: SendRun)
    ensures run.post.path == userPath + "/sendMail" && run.post.saveToSentItems == Some(true)
    ensures run.post.message.subject == Some(subject) && run.post.message.from == Some(from)
    ensures run.post.message.body == Body("HTML", html)
    ensures run.post.message.toRecipients == Some(Recipients(to))
    ensures var atts := ParseAttachments(attachments, parseJson);
            && (atts != [] ==> run.post.message.attachments == Some(atts) && run.post.message.hasAttachments == Some(true))
            && (atts == [] ==> run.post.message.attachments == None && run.post.message.hasAttachments == None)
    ensures postError.Some? ==> run.result == Err(postError.value)
    ensures postError.None? ==> run.result == Ok(SendResult(true, "Sent via Graph API"))
  {
    var toRecipients := Recipients(to);
    var message := OutgoingMessage(Some(subject), Body("HTML", html), Some(from), Some(toRecipients), None, None);
    var graphAttachments := ParseAttachments(attachments, parseJson);
    if |graphAttachments| > 0 {
      message := message.(attachments := Some(graphAttachments), hasAttachments := Some(true));
    }
    var post := GraphPost(userPath + "/sendMail", message, Some(true));
    if postError.Some? {
      return SendRun(post, Err(postError.value));
    }
    return SendRun(post, Ok(SendResult(true, "Sent via Graph API")));
  }

  /**
   * `replyOutlookEmail`: the reply carries only the body, the recipients
   * when `to` is non-empty, and the attachments when there are any.
   */
  method ReplyOutlookEmail(userPath: string, outlookId: string, to: string, html: string,
                           attachments: AttachmentsArg, parseJson: string -> Option<AttachmentsArg>,
                           postError: Option<string>)
    returns (run: SendRun)
    ensures run.post.path == userPath + "/messages/" + outlookId + "/reply" && run.post.saveToSentItems == None
    ensures run.post.message.subject == None && run.post.message.from == None
    ensures run.post.message.body == Body("HTML", html)
    ensures to == "" ==> run.post.message.toRecipients == None
    ensures to != "" ==> run.post.message.toRecipients == Some(Recipients(to))
    ensures var atts := ParseAttachments(attachments, parseJson);
            run.post.message.attachments == (if atts != [] then Some(atts) else None)
    ensures run.post.message.hasAttachments == None
    ensures postError.Some? ==> run.result == Err(postError.value)
    ensures postError.None? ==> run.result == Ok(SendResult(true, "Replied via Graph API"))
  {
    var message := OutgoingMessage(None, Body("HTML", html), None, None, None, None);
    if to != "" {
      message := message.(toRecipients := Some(Recipients(to)));
    }
    var graphAttachments := ParseAttachments(attachments, parseJson);
    if |graphAttachments| > 0 {
      message := message.(attachments := Some(graphAttachments));
    }
    var post := GraphPost(userPath + "/messages/" + outlookId + "/reply", message, None);
    if postError.Some? {
      return SendRun(post, Err(postError.value));
    }
    return SendRun(post, Ok(SendResult(true, "Replied via Graph API")));
  }
}
