/**
 * The raw-message layout both IMAP append builders use: header lines joined
 * by CRLF, an empty line, then the body; and the reader's view of it, which
 * splits the text at every CRLF and takes the first empty line as the end
 * of the header section.
 */
module MimeLines {
  import opened Wrappers

  const Crlf: string := "\r\n"

  /** `lines.join('\r\n')` */
  function JoinCrlf(lines: seq<string>): string
  {
    if lines == [] then ""
    else if |lines| == 1 then lines[0]
    else lines[0] + Crlf + JoinCrlf(lines[1..])
  }

  /** `headers.join('\r\n') + '\r\n\r\n' + body` */
  function Assemble(headers: seq<string>, body: string): string
  {
    JoinCrlf(headers) + Crlf + Crlf + body
  }

  predicate NoCr(s: string)
  {
    forall k :: 0 <= k < |s| ==> s[k] != '\r'
  }

  lemma NoCrConcat(a: string, b: string)
    requires NoCr(a) && NoCr(b)
    ensures NoCr(a + b)
  {
    forall k | 0 <= k < |a + b| ensures (a + b)[k] != '\r' {
      if k >= |a| {
        assert (a + b)[k] == b[k - |a|];
      }
    }
  }

  /** Where the first CRLF of s starts. */
  function FirstCrlf(s: string): (r: Option<nat>)
    ensures r.Some? ==> r.value + 1 < |s| && s[r.value] == '\r' && s[r.value + 1] == '\n'
    decreases |s|
  {
    if |s| < 2 then None
    else if s[0] == '\r' && s[1] == '\n' then Some(0)
    else match FirstCrlf(s[1..])
      case None => None
      case Some(k) => Some(k + 1)
  }

  /** The lines of s, split at every CRLF. */
  function SplitCrlf(s: string): (r: seq<string>)
    ensures |r| >= 1
    decreases |s|
  {
    match FirstCrlf(s)
    case None => [s]
    case Some(k) => [s[..k]] + SplitCrlf(s[k + 2..])
  }

  /** The position of the first empty line, if any. */
  function FirstEmpty(lines: seq<string>): (r: Option<nat>)
    ensures r.Some? ==> r.value < |lines| && lines[r.value] == ""
                        && forall k :: 0 <= k < r.value ==> lines[k] != ""
    ensures r.None? ==> forall k :: 0 <= k < |lines| ==> lines[k] != ""
  {
    if lines == [] then None
    else if lines[0] == "" then Some(0)
    else match FirstEmpty(lines[1..])
      case None => None
      case Some(k) => Some(k + 1)
  }

  /** A reader's view of a raw message: the header lines before the first empty line, and the text after it. */
  function ParseRaw(s: string): Option<(seq<string>, string)>
  {
    var lines := SplitCrlf(s);
    match FirstEmpty(lines)
    case None => None
    case Some(k) => Some((lines[..k], JoinCrlf(lines[k + 1..])))
  }

  // ---------------------------------------------------------------------

  lemma {:induction false} FirstCrlfOfLine(a: string, rest: string)
    requires NoCr(a)
    ensures FirstCrlf(a + Crlf + rest) == Some(|a|)
    decreases |a|
  {
    if a != [] {
      assert (a + Crlf + rest)[1..] == a[1..] + Crlf + rest;
      FirstCrlfOfLine(a[1..], rest);
    }
  }

  lemma {:induction false} FirstCrlfOfNoCr(s: string)
    requires NoCr(s)
    ensures FirstCrlf(s) == None
    decreases |s|
  {
    if |s| >= 2 {
      FirstCrlfOfNoCr(s[1..]);
    }
  }

  /** A CR-free line followed by CRLF is split off as the first piece. */
  lemma SplitAfterLine(a: string, tail: string)
    requires NoCr(a)
    ensures SplitCrlf(a + Crlf + tail) == [a] + SplitCrlf(tail)
  {
    var s := a + Crlf + tail;
    FirstCrlfOfLine(a, tail);
    assert s[..|a|] == a;
    assert s[|a| + 2..] == tail;
  }

  /** One more CR-free line in front of a join that splits back keeps it splitting back. */
  lemma SplitJoinStep(a: string, more: seq<string>, rest: string)
    requires NoCr(a) && |more| > 0
    requires SplitCrlf(JoinCrlf(more) + Crlf + rest) == more + SplitCrlf(rest)
    ensures SplitCrlf(JoinCrlf([a] + more) + Crlf + rest) == [a] + more + SplitCrlf(rest)
  {
    var lines := [a] + more;
    assert lines[0] == a && lines[1..] == more;
    var tail := JoinCrlf(more) + Crlf + rest;
    assert JoinCrlf(lines) + Crlf + rest == a + Crlf + tail;
    SplitAfterLine(a, tail);
  }

  /** Splitting undoes joining, for lines without CR. */
  lemma {:induction false} SplitJoin(lines: seq<string>, rest: string)
    requires |lines| > 0 && forall k :: 0 <= k < |lines| ==> NoCr(lines[k])
    ensures SplitCrlf(JoinCrlf(lines) + Crlf + rest) == lines + SplitCrlf(rest)
    decreases |lines|
  {
    var a := lines[0];
    if |lines| == 1 {
      SplitAfterLine(a, rest);
      assert lines == [a];
    } else {
      SplitJoin(lines[1..], rest);
      SplitJoinStep(a, lines[1..], rest);
      assert lines == [a] + lines[1..];
    }
  }

  /**
   * The round trip of the raw-message layout: when no header line is empty
   * or holds a CR and the body holds no CR, a reader gets back exactly the
   * header lines and the body.
   */
  lemma AssembleParses(headers: seq<string>, body: string)
    requires |headers| > 0
    requires forall k :: 0 <= k < |headers| ==> headers[k] != "" && NoCr(headers[k])
    requires NoCr(body)
    ensures ParseRaw(Assemble(headers, body)) == Some((headers, body))
  {
    var s := Assemble(headers, body);
    SplitJoin(headers, Crlf + body);
    assert s == JoinCrlf(headers) + Crlf + (Crlf + body);
    FirstCrlfOfLine("", body);
    assert ("" + Crlf + body) == Crlf + body;
    assert (Crlf + body)[..0] == "";
    assert (Crlf + body)[2..] == body;
    FirstCrlfOfNoCr(body);
    var lines := headers + [""] + [body];
    assert SplitCrlf(s) == lines;
    assert FirstEmpty(lines) == Some(|headers|) by {
      FirstEmptyAfter(headers, [""] + [body]);
    }
    assert lines[..|headers|] == headers;
    assert lines[|headers| + 1..] == [body];
  }

  lemma {:induction false} FirstEmptyAfter(lines: seq<string>, rest: seq<string>)
    requires forall k :: 0 <= k < |lines| ==> lines[k] != ""
    requires |rest| > 0 && rest[0] == ""
    ensures FirstEmpty(lines + rest) == Some(|lines|)
    decreases |lines|
  {
    if lines != [] {
      assert (lines + rest)[1..] == lines[1..] + rest;
      FirstEmptyAfter(lines[1..], rest);
    }
  }
}
