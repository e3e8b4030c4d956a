/**
  The supervisord event listener: each round it announces READY, reads one header line of
  space-separated `key:value` tokens, reads a body of the length the `len` header gives,
  logs fatal process-state events, and acknowledges with a RESULT frame carrying "OK".
  Standard input, standard output and standard error are modelled as strings.
*/
module Listener {
  import opened Wrappers
  import opened PyStr

  // ---------------------------------------------------------------------------
  // Reading standard input

  /** `readline()`: everything up to and including the first newline, or all that is left. */
  function ReadLine(s: string): (r: (string, string))
    ensures r.0 + r.1 == s
    ensures '\n' in s ==> |r.0| > 0 && r.0[|r.0| - 1] == '\n' && '\n' !in r.0[..|r.0| - 1]
    ensures '\n' !in s ==> r == (s, "")
  {
    match SplitOnce(s, '\n')
    case None => (s, "")
    case Some((line, rest)) =>
      assert (line + "\n")[..|line|] == line;
      (line + "\n", rest)
  }

  /** `removesuffix("\n")`: at most one trailing newline is dropped. */
  function RemoveNewline(s: string): (r: string)
    ensures r == s || (r + "\n" == s)
  {
    if |s| > 0 && s[|s| - 1] == '\n' then s[..|s| - 1] else s
  }

  /** `read(n)`: `n` characters, or everything left when `n` is negative or too large. */
  function ReadChars(s: string, n: int): (r: (string, string))
    ensures r.0 + r.1 == s
    ensures 0 <= n <= |s| ==> |r.0| == n
    ensures (n < 0 || n >= |s|) ==> r.1 == ""
  {
    if n < 0 || n >= |s| then (s, "") else (s[..n], s[n..])
  }

  // ---------------------------------------------------------------------------
  // The header line

  /** The part of a token before its first colon. */
  function HeaderKey(token: string): string
    requires ':' in token
  {
    SplitOnce(token, ':').value.0
  }

  /** The part of a token after its first colon; it may hold further colons. */
  function HeaderValue(token: string): string
    requires ':' in token
  {
    SplitOnce(token, ':').value.1
  }

  /**
    The dictionary comprehension over the tokens: each token is split at its first colon
    and later tokens overwrite earlier ones; a token without a colon cannot be unpacked
    into a key and a value (ValueError).
  */
  function ParseTokens(tokens: seq<string>): (r: Option<map<string, string>>)
    ensures r.Some? <==> forall i | 0 <= i < |tokens| :: ':' in tokens[i]
  {
    if tokens == [] then Some(map[])
    else
      match ParseTokens(tokens[..|tokens| - 1])
      case None => None
      case Some(m) =>
        match SplitOnce(tokens[|tokens| - 1], ':')
        case None => None
        case Some((key, value)) => Some(m[key := value])
  }

  /** The last token's key and value are stored over the dictionary of the tokens before it. */
  lemma ParseTokensSnoc(tokens: seq<string>)
    requires tokens != [] && ParseTokens(tokens).Some?
    ensures ParseTokens(tokens[..|tokens| - 1]).Some?
    ensures ParseTokens(tokens).value ==
      ParseTokens(tokens[..|tokens| - 1]).value[HeaderKey(tokens[|tokens| - 1]) := HeaderValue(tokens[|tokens| - 1])]
  {
  }

  /** The parsed dictionary has a key for every token. */
  lemma {:induction false} ParseTokensHasKeys(tokens: seq<string>)
    requires ParseTokens(tokens).Some?
    ensures forall i | 0 <= i < |tokens| :: HeaderKey(tokens[i]) in ParseTokens(tokens).value
  {
    if tokens != [] {
      var init := tokens[..|tokens| - 1];
      ParseTokensSnoc(tokens);
      ParseTokensHasKeys(init);
      var m := ParseTokens(init).value;
      var r := ParseTokens(tokens).value;
      assert m.Keys <= r.Keys;
      forall i | 0 <= i < |init| ensures HeaderKey(tokens[i]) in r {
        assert tokens[i] == init[i];
        assert HeaderKey(init[i]) in m;
      }
    }
  }

  /** Every key of the parsed dictionary comes from a token. */
  lemma {:induction false} ParseTokensOnlyKeys(tokens: seq<string>)
    requires ParseTokens(tokens).Some?
    ensures forall k | k in ParseTokens(tokens).value :: exists i | 0 <= i < |tokens| :: HeaderKey(tokens[i]) == k
  {
    if tokens != [] {
      var init := tokens[..|tokens| - 1];
      var last := tokens[|tokens| - 1];
      ParseTokensSnoc(tokens);
      ParseTokensOnlyKeys(init);
      var r := ParseTokens(tokens).value;
      forall k | k in r ensures exists i | 0 <= i < |tokens| :: HeaderKey(tokens[i]) == k {
        if k == HeaderKey(last) {
          assert HeaderKey(tokens[|tokens| - 1]) == k;
        } else {
          var i :| 0 <= i < |init| && HeaderKey(init[i]) == k;
          assert tokens[i] == init[i];
        }
      }
    }
  }

  /** The key of token `i` holds its value when no later token names the same key. */
  lemma {:induction false} ParseTokensLastWinsAt(tokens: seq<string>, i: nat)
    requires ParseTokens(tokens).Some? && i < |tokens|
    requires forall j | i < j < |tokens| :: HeaderKey(tokens[j]) != HeaderKey(tokens[i])
    ensures HeaderKey(tokens[i]) in ParseTokens(tokens).value
    ensures ParseTokens(tokens).value[HeaderKey(tokens[i])] == HeaderValue(tokens[i])
  {
    var init := tokens[..|tokens| - 1];
    ParseTokensSnoc(tokens);
    if i < |init| {
      assert init[i] == tokens[i];
      forall j | i < j < |init| ensures HeaderKey(init[j]) != HeaderKey(init[i]) {
        assert init[j] == tokens[j];
      }
      ParseTokensLastWinsAt(init, i);
      assert HeaderKey(tokens[|tokens| - 1]) != HeaderKey(tokens[i]);
    }
  }

  /** Each key holds the value of the last token that names it. */
  lemma ParseTokensLastWins(tokens: seq<string>)
    requires ParseTokens(tokens).Some?
    ensures forall i | 0 <= i < |tokens| ::
      (forall j | i < j < |tokens| :: HeaderKey(tokens[j]) != HeaderKey(tokens[i])) ==>
        && HeaderKey(tokens[i]) in ParseTokens(tokens).value
        && ParseTokens(tokens).value[HeaderKey(tokens[i])] == HeaderValue(tokens[i])
  {
    forall i | 0 <= i < |tokens| && (forall j | i < j < |tokens| :: HeaderKey(tokens[j]) != HeaderKey(tokens[i])) {
      ParseTokensLastWinsAt(tokens, i);
    }
  }

  /** `{key: val for key, val in (hdr.split(":", maxsplit=1) for hdr in line.split(" "))}` */
  function ParseHeaders(line: string): Option<map<string, string>>
  {
    ParseTokens(Split(line, ' '))
  }

  /** An empty line has one empty token, which has no colon. */
  lemma EmptyLineIsMalformed()
    ensures ParseHeaders("") == None
  {
    assert Split("", ' ') == [""];
  }

  /** A header as the event source writes it. */
  datatype Header = Header(key: string, value: string)

  /** A key free of colons, spaces and newlines, and a value free of spaces and newlines. */
  predicate Plain(h: Header)
  {
    ':' !in h.key && ' ' !in h.key && '\n' !in h.key && ' ' !in h.value && '\n' !in h.value
  }

  function Tokens(hs: seq<Header>): (r: seq<string>)
    ensures |r| == |hs|
    ensures forall i | 0 <= i < |hs| :: r[i] == hs[i].key + ":" + hs[i].value
  {
    if hs == [] then []
    else Tokens(hs[..|hs| - 1]) + [hs[|hs| - 1].key + ":" + hs[|hs| - 1].value]
  }

  /** The header line `key:value key:value ...` without its newline. */
  function HeaderLine(hs: seq<Header>): string
  {
    Join(Tokens(hs), ' ')
  }

  /** The dictionary the headers denote: a later header overrides an earlier one with the same key. */
  function HeaderMap(hs: seq<Header>): map<string, string>
  {
    if hs == [] then map[] else HeaderMap(hs[..|hs| - 1])[hs[|hs| - 1].key := hs[|hs| - 1].value]
  }

  lemma {:induction false} ParseTokensOfHeaders(hs: seq<Header>)
    requires forall i | 0 <= i < |hs| :: Plain(hs[i])
    ensures ParseTokens(Tokens(hs)) == Some(HeaderMap(hs))
  {
    if hs != [] {
      var init := hs[..|hs| - 1];
      var h := hs[|hs| - 1];
      ParseTokensOfHeaders(init);
      assert Tokens(hs)[..|hs| - 1] == Tokens(init);
      SplitOnceOf(h.key, h.value, ':');
    }
  }

  /** Parsing a header line gives back the dictionary of its headers. */
  lemma ParseHeaderLine(hs: seq<Header>)
    requires |hs| >= 1
    requires forall i | 0 <= i < |hs| :: Plain(hs[i])
    ensures ParseHeaders(HeaderLine(hs)) == Some(HeaderMap(hs))
  {
    var tokens := Tokens(hs);
    forall i | 0 <= i < |tokens| ensures ' ' !in tokens[i] {
      assert Plain(hs[i]);
    }
    SplitJoin(tokens, ' ');
    ParseTokensOfHeaders(hs);
  }

  /** No newline appears in a header line. */
  lemma HeaderLineHasNoNewline(hs: seq<Header>)
    requires forall i | 0 <= i < |hs| :: Plain(hs[i])
    ensures '\n' !in HeaderLine(hs)
  {
    var tokens := Tokens(hs);
    forall i | 0 <= i < |tokens| ensures '\n' !in tokens[i] {
      assert Plain(hs[i]);
    }
    JoinAvoids(tokens, ' ', '\n');
  }

  // ---------------------------------------------------------------------------
  // One event

  /** A received event: its header dictionary and its body. */
  datatype Event = Event(headers: map<string, string>, body: string)

  /** Why the listener stops: an unpackable token (ValueError), no `len` header (KeyError), or a `len` that `int()` refuses: not an integer, or more than `MaxStrDigits` digits (ValueError). */
  datatype ListenerError = MalformedHeader | MissingLength | InvalidLength

  /** The state name whose events are logged. */
  const ProcessStateFatal := "PROCESS_STATE_FATAL"

  /** `headers.get("eventname") == "PROCESS_STATE_FATAL"` */
  predicate IsFatal(e: Event)
  {
    "eventname" in e.headers && e.headers["eventname"] == ProcessStateFatal
  }

  /**
    Reading the header line of one event: its dictionary, the body length
    `int(headers["len"])`, and what is left of the input after the line.
  */
  function ReadHeaders(input: string): (r: Result<(map<string, string>, int, string), ListenerError>)
    ensures input == "" ==> r == Failure(MalformedHeader)
    ensures r.Success? ==> "len" in r.value.0 && |r.value.2| < |input| && input[|input| - |r.value.2|..] == r.value.2
    ensures r.Success? ==> ParseInt(r.value.0["len"]) == Some(r.value.1)
  {
    var (raw, rest) := ReadLine(input);
    EmptyLineIsMalformed();
    match ParseHeaders(RemoveNewline(raw))
    case None => Failure(MalformedHeader)
    case Some(headers) =>
      if "len" !in headers then Failure(MissingLength)
      else
        match ParseInt(headers["len"])
        case None => Failure(InvalidLength)
        case Some(n) => Success((headers, n, rest))
  }

  lemma SuffixOfSuffix(s: string, t: string, u: string, v: string)
    requires |t| <= |s| && s[|s| - |t|..] == t && t == u + v
    ensures |v| <= |s| && s[|s| - |v|..] == v
  {
    assert s[|s| - |v|..] == t[|t| - |v|..];
    assert t[|t| - |v|..] == v;
  }

  /** Reading one event from standard input; the result carries what is left of the input. */
  function NextEvent(input: string): (r: Result<(Event, string), ListenerError>)
    ensures input == "" ==> r == Failure(MalformedHeader)
    ensures r.Success? ==> "len" in r.value.0.headers && |r.value.1| < |input|
    ensures r.Success? ==> input[|input| - |r.value.1|..] == r.value.1
    ensures r.Success? ==> ParseInt(r.value.0.headers["len"]).Some?
  {
    match ReadHeaders(input)
    case Failure(e) => Failure(e)
    case Success((headers, n, rest)) =>
      var (body, rest') := ReadChars(rest, n);
      SuffixOfSuffix(input, rest, body, rest');
      Success((Event(headers, body), rest'))
  }

  /** An event as supervisord writes it: the header line, a newline, and the body. */
  function EventText(hs: seq<Header>, body: string): string
  {
    HeaderLine(hs) + "\n" + body
  }

  /** `readline()` on a written event stops at the newline after the header line. */
  lemma ReadLineOfEventText(hs: seq<Header>, body: string, rest: string)
    requires forall i | 0 <= i < |hs| :: Plain(hs[i])
    ensures ReadLine(EventText(hs, body) + rest) == (HeaderLine(hs) + "\n", body + rest)
    ensures RemoveNewline(HeaderLine(hs) + "\n") == HeaderLine(hs)
  {
    var line := HeaderLine(hs);
    HeaderLineHasNoNewline(hs);
    SplitOnceOf(line, body + rest, '\n');
    assert EventText(hs, body) + rest == line + ['\n'] + (body + rest);
    assert (line + "\n")[..|line|] == line;
  }

  /** The header line of a written event is read back to its dictionary and the body's length. */
  lemma ReadHeadersOfEventText(hs: seq<Header>, body: string, rest: string)
    requires |hs| >= 1
    requires forall i | 0 <= i < |hs| :: Plain(hs[i])
    requires "len" in HeaderMap(hs) && HeaderMap(hs)["len"] == IntToString(|body|)
    ensures ReadHeaders(EventText(hs, body) + rest) ==
      if DigitLength(|body|) <= MaxStrDigits then Success((HeaderMap(hs), |body|, body + rest)) else Failure(InvalidLength)
  {
    ReadLineOfEventText(hs, body, rest);
    ParseHeaderLine(hs);
    ParseIntOfIntToString(|body|);
  }

  /**
    An event whose `len` header is the decimal length of its body is read back exactly,
    leaving the input that follows it untouched; a length of more than `MaxStrDigits`
    digits makes `int()` raise instead.
  */
  lemma NextEventOfEventText(hs: seq<Header>, body: string, rest: string)
    requires |hs| >= 1
    requires forall i | 0 <= i < |hs| :: Plain(hs[i])
    requires "len" in HeaderMap(hs) && HeaderMap(hs)["len"] == IntToString(|body|)
    ensures NextEvent(EventText(hs, body) + rest) ==
      if DigitLength(|body|) <= MaxStrDigits then Success((Event(HeaderMap(hs), body), rest)) else Failure(InvalidLength)
  {
    ReadHeadersOfEventText(hs, body, rest);
    assert ReadChars(body + rest, |body|) == (body, rest) by {
      assert (body + rest)[..|body|] == body && (body + rest)[|body|..] == rest;
    }
  }

  // ---------------------------------------------------------------------------
  // Replies

  const Ready := "READY\n"

  /** A RESULT frame: the decimal length of the payload on the first line, then the payload. */
  function ResultFrame(payload: string): string
  {
    "RESULT " + NatToString(|payload|) + "\n" + payload
  }

  const Reply := "RESULT 2\nOK"

  /** The reply's declared length is the length of its "OK" payload. */
  lemma ReplyIsOkFrame()
    ensures Reply == ResultFrame("OK")
  {
    assert NatToString(2) == "2";
  }

  /** The process as seen through its three standard streams. */
  class EventListener {
    /** What is still unread on standard input. */
    var input: string
    /** Everything written to standard output. */
    var output: string
    /** The bodies of the events logged on standard error, oldest first. */
    var log: seq<string>

    constructor (input: string)
      ensures this.input == input && output == "" && log == []
    {
      this.input := input;
      output := "";
      log := [];
    }

    /**
      One round of the main loop.  A failure is an exception that ends the process: the
      header line has been consumed and no RESULT is written.
    */
    method Step() returns (r: Outcome<ListenerError>)
      modifies this
      ensures r.Fail? <==> NextEvent(old(input)).Failure?
      ensures r.Fail? ==>
        && r.error == NextEvent(old(input)).error
        && output == old(output) + Ready
        && input == ReadLine(old(input)).1
        && log == old(log)
      ensures r.Pass? ==>
        && output == old(output) + Ready + Reply
        && input == NextEvent(old(input)).value.1
        && log == old(log) + (if IsFatal(NextEvent(old(input)).value.0) then [NextEvent(old(input)).value.0.body] else [])
    {
      output := output + Ready;
      var (raw, rest) := ReadLine(input);
      input := rest;
      var line := RemoveNewline(raw);
      var parsed := ParseHeaders(line);
      if parsed.None? {
        return Fail(MalformedHeader);
      }
      var headers := parsed.value;
      if "len" !in headers {
        return Fail(MissingLength);
      }
      var length := ParseInt(headers["len"]);
      if length.None? {
        return Fail(InvalidLength);
      }
      var (body, rest') := ReadChars(input, length.value);
      input := rest';
      if "eventname" in headers && headers["eventname"] == ProcessStateFatal {
        log := log + [body];
      }
      output := output + Reply;
      return Pass;
    }
  }
}
