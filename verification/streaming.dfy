/**
 * The streaming side of `commizard.llm_providers`: the `StreamRequest`
 * session (an open response read line by line, released on scope exit) and
 * `stream_generate`, which reads server-sent-event lines, keeps the content
 * fragments and hands each one to the live display.
 */
module Streaming {
  import opened Wrappers
  import opened Text
  import opened Json
  import opened Providers
  import Config

  // ---------------------------------------------------------------- opening a session

  /** Options `StreamRequest` adds for keys the caller did not pass. */
  const StreamDefaults: map<string, KwArg> := map["stream" := KwFlag(true), "timeout" := KwTimeout(0.5, 5.0)]

  /** The caller's options over the defaults, key by key: a caller's key always wins, a default fills only a missing key. */
  function MergeDefaults(kwargs: map<string, KwArg>): (merged: map<string, KwArg>)
    ensures merged.Keys == kwargs.Keys + StreamDefaults.Keys
    ensures forall k :: k in kwargs ==> merged[k] == kwargs[k]
    ensures forall k :: k in StreamDefaults && k !in kwargs ==> merged[k] == StreamDefaults[k]
  {
    StreamDefaults + kwargs
  }

  /** The options of the generation stream: its JSON body, streaming on, and the (0.5, 5) timeout. */
  lemma GenerationStreamOptions(payload: Json)
    ensures MergeDefaults(map["json" := KwJson(payload)])
         == map["json" := KwJson(payload), "stream" := KwFlag(true), "timeout" := KwTimeout(0.5, 5.0)]
  {
  }

  /** The message a session records when opening it raised. */
  function OpenFailureMessage(kind: TransportKind): (msg: string)
    ensures msg != ""
    ensures msg == TransportMessage(kind) <==> kind == HttpFailure || kind == Ambiguous
  {
    match kind
    case ConnectionFailure => "Cannot connect to the server"
    case HttpFailure => "HTTP error occurred"
    case TooManyRedirects => "Too many redirects"
    case TimedOut => "request timed out"
    case Ambiguous => "There was an ambiguous error"
  }

  const SeveredMessage: string := "The server closed the connection before the full response was received."

  /** A response without a declared encoding is read as UTF-8. */
  function EffectiveEncoding(declared: Option<string>): (encoding: string)
    ensures declared.Some? ==> encoding == declared.value
    ensures declared.None? ==> encoding == "utf-8"
  {
    match declared
    case Some(e) => e
    case None => "utf-8"
  }

  /** How opening a streamed request ended: a response, or a transport exception. */
  datatype StreamOutcome =
    | Opened(code: nat, encoding: Option<string>, lines: seq<string>, severed: bool)
    | OpenRaised(kind: TransportKind)

  /**
   * An open streamed response: the lines it will deliver (already decoded as
   * text) and whether the server cuts the connection after them.
   */
  class StreamResponse {
    const lines: seq<string>
    const severed: bool
    var encoding: string
    var closeCount: nat

    constructor (lines: seq<string>, severed: bool, encoding: string)
      ensures this.lines == lines && this.severed == severed && this.encoding == encoding
      ensures closeCount == 0
    {
      this.lines, this.severed, this.encoding := lines, severed, encoding;
      closeCount := 0;
    }

    method Close()
      modifies this`closeCount
      ensures closeCount == old(closeCount) + 1
    {
      closeCount := closeCount + 1;
    }
  }

  /** What advancing the line iterator gives: a line, the end of the stream, or a stream error. */
  datatype StreamItem = Line(text: string) | Exhausted | StreamError(message: string)

  class StreamRequest {
    /** The call made when the session was opened. */
    const call: Call
    var response: StreamResponse?
    var error: (bool, string)
    /** `self.stream`: unset until iteration starts, then the position of the next line. */
    var cursor: Option<nat>

    ghost predicate Valid()
      reads this, response
    {
      && (error.0 <==> response == null)
      && (cursor.Some? ==> response != null && cursor.value <= |response.lines|)
    }

    /** `StreamRequest(verb, url, **kwargs)`: opens the request at once and records whether it failed. */
    constructor (verb: string, url: string, kwargs: map<string, KwArg>, net: StreamOutcome)
      ensures Valid() && cursor == None
      ensures call == Call(verb, url, MergeDefaults(kwargs))
      ensures net.OpenRaised? ==> error == (true, OpenFailureMessage(net.kind)) && response == null
      ensures net.Opened? && net.code != 200 ==> error == (true, GetErrorMessage(net.code)) && response == null
      ensures net.Opened? && net.code == 200 ==>
        && error == (false, "") && response != null && fresh(response)
        && response.lines == net.lines && response.severed == net.severed
        && response.encoding == EffectiveEncoding(net.encoding) && response.closeCount == 0
    {
      call := Call(verb, url, MergeDefaults(kwargs));
      cursor := None;
      match net
      case OpenRaised(kind) =>
        error := (true, OpenFailureMessage(kind));
        response := null;
      case Opened(code, encoding, lines, severed) =>
        if code != 200 {
          error := (true, GetErrorMessage(code));
          response := null;
        } else {
          error := (false, "");
          response := new StreamResponse(lines, severed, EffectiveEncoding(encoding));
        }
    }

    /**
     * `__exit__`: closes the response when there is one, and answers `False`
     * when an exception is passing through (so it propagates) and `None`
     * otherwise.
     */
    method Exit(raised: bool) returns (r: Option<bool>)
      requires Valid()
      modifies if response != null then {response} else {}
      ensures Valid()
      ensures response != null ==> response.closeCount == old(response.closeCount) + 1
      ensures response != null ==> response.encoding == old(response.encoding)
      ensures r == if raised then Some(false) else None
    {
      if response != null {
        response.Close();
      }
      r := if raised then Some(false) else None;
    }

    /** `__iter__`: fails with the recorded message when opening failed (the iterator stays unset), otherwise starts at the first line. */
    method Iter() returns (failure: Option<string>)
      requires Valid()
      modifies this`cursor
      ensures Valid()
      ensures error.0 ==> failure == Some(error.1) && cursor == old(cursor)
      ensures !error.0 ==> failure == None && cursor == Some(0)
    {
      if error.0 {
        failure := Some(error.1);
      } else {
        failure := None;
        cursor := Some(0);
      }
    }

    /** `__next__`: the next line, the end of the stream, or the distinguished error for a connection cut mid-stream. */
    method Next() returns (item: StreamItem)
      requires Valid() && cursor.Some?
      modifies this`cursor
      ensures Valid() && cursor.Some?
      ensures old(cursor.value) < |response.lines| ==>
        item == Line(response.lines[old(cursor.value)]) && cursor == Some(old(cursor.value) + 1)
      ensures old(cursor.value) == |response.lines| ==> cursor == old(cursor)
      ensures old(cursor.value) == |response.lines| && response.severed ==> item == StreamError(SeveredMessage)
      ensures old(cursor.value) == |response.lines| && !response.severed ==> item == Exhausted
    {
      var k := cursor.value;
      if k < |response.lines| {
        item := Line(response.lines[k]);
        cursor := Some(k + 1);
      } else if response.severed {
        item := StreamError(SeveredMessage);
      } else {
        item := Exhausted;
      }
    }
  }

  // ---------------------------------------------------------------- server-sent-event frames

  const DecodeFailureMessage: string := "Couldn't decode JSON response"
  const InvalidOutputMessage: string := "Couldn't find response from JSON: Invalid output"

  /** What one line of the event stream contributes. */
  datatype Frame = Skip | DoneFrame | Fragment(text: string) | Fail(message: string)

  /**
   * The content of a decoded frame: `choices[0].delta.content`. A first
   * choice without a delta, and a delta without content, contribute nothing;
   * any other shape is invalid output.
   */
  function DeltaContent(frame: Json): (r: Frame)
    ensures r != DoneFrame
    ensures r.Fail? ==> r.message == InvalidOutputMessage
    ensures Member(frame, "choices").None? ==> r.Fail?
    ensures Member(frame, "choices").Some? && !Member(frame, "choices").value.JArr? ==> r.Fail?
    ensures r.Fragment? ==> First(Member(frame, "choices").value).Some?
    ensures var choices := Member(frame, "choices");
      var choice := if choices.Some? then First(choices.value) else None;
      var delta := if choice.Some? && choice.value.JObj? then Get(choice.value, "delta") else None;
      var content := if delta.Some? && delta.value.JObj? then Get(delta.value, "content") else None;
      && (choice.Some? && choice.value.JObj? && delta.None? ==> r == Skip)
      && (delta.Some? && delta.value.JObj? && content.None? ==> r == Skip)
      && (content.Some? && content.value.JStr? ==> r == Fragment(content.value.s))
      && (r.Fail? <==> choice.None? || !choice.value.JObj? || (delta.Some? && !delta.value.JObj?) || (content.Some? && !content.value.JStr?))
  {
    match Member(frame, "choices")
    case None => Fail(InvalidOutputMessage)
    case Some(choices) =>
      match First(choices)
      case None => Fail(InvalidOutputMessage)
      case Some(choice) =>
        if !choice.JObj? then Fail(InvalidOutputMessage)
        else match Get(choice, "delta")
          case None => Skip
          case Some(delta) =>
            if !delta.JObj? then Fail(InvalidOutputMessage)
            else match Get(delta, "content")
              case None => Skip
              case Some(content) => if content.JStr? then Fragment(content.s) else Fail(InvalidOutputMessage)
  }

  /**
   * One line of the stream. `decode` stands for the JSON library: it gives the
   * decoded value of a payload, or nothing when the payload is not JSON.
   */
  function ParseFrame(line: string, decode: string -> Option<Json>): (r: Frame)
    ensures line == [] || line[0] == ':' || !StartsWith(line, "data:") ==> r == Skip
    ensures r == DoneFrame <==> StartsWith(line, "data:") && Strip(line[5..]) == "[DONE]"
    ensures r == Fail(DecodeFailureMessage) <==>
      StartsWith(line, "data:") && Strip(line[5..]) != "[DONE]" && decode(line[5..]).None?
    ensures r.Fail? ==> r.message == DecodeFailureMessage || r.message == InvalidOutputMessage
    ensures StartsWith(line, "data:") && Strip(line[5..]) != "[DONE]" && decode(line[5..]).Some? ==>
      r == DeltaContent(decode(line[5..]).value)
  {
    if line == [] || line[0] == ':' then Skip
    else if !StartsWith(line, "data:") then Skip
    else
      var payload := line[5..];
      if Strip(payload) == "[DONE]" then DoneFrame
      else match decode(payload)
        case None => Fail(DecodeFailureMessage)
        case Some(value) => DeltaContent(value)
  }

  /** Why reading stopped. */
  datatype Stop = EndOfLines | DoneSeen | Failed(message: string)

  /** The fragments read, in order, and why reading stopped. */
  datatype Scan = Scan(fragments: seq<string>, stop: Stop)

  /** How one frame combines with what the lines after it give. */
  function Continue(frame: Frame, rest: Scan): Scan {
    match frame
    case Skip => rest
    case DoneFrame => Scan([], DoneSeen)
    case Fail(m) => Scan([], Failed(m))
    case Fragment(f) => Scan([f] + rest.fragments, rest.stop)
  }

  /** Reads lines until `[DONE]`, a failing frame, or the end, collecting every fragment (empty ones too). */
  function ScanFrames(lines: seq<string>, decode: string -> Option<Json>): (r: Scan)
    ensures |r.fragments| <= |lines|
    ensures lines == [] ==> r == Scan([], EndOfLines)
  {
    if lines == [] then Scan([], EndOfLines)
    else Continue(ParseFrame(lines[0], decode), ScanFrames(lines[1..], decode))
  }

  lemma ScanStep(lines: seq<string>, k: nat, decode: string -> Option<Json>)
    requires k < |lines|
    ensures ScanFrames(lines[k..], decode) == Continue(ParseFrame(lines[k], decode), ScanFrames(lines[k + 1..], decode))
  {
    assert lines[k..][1..] == lines[k + 1..];
  }

  /** Nothing after the `[DONE]` line is read. */
  lemma {:induction false} DoneStopsReading(pre: seq<string>, done: string, post: seq<string>, decode: string -> Option<Json>)
    requires ParseFrame(done, decode) == DoneFrame
    ensures ScanFrames(pre + [done] + post, decode) == ScanFrames(pre + [done], decode)
    decreases |pre|
  {
    if pre == [] {
      assert (pre + [done] + post)[1..] == post;
    } else {
      assert (pre + [done] + post)[1..] == pre[1..] + [done] + post;
      assert (pre + [done])[1..] == pre[1..] + [done];
      DoneStopsReading(pre[1..], done, post, decode);
    }
  }

  /** A skipped line (comment, blank, not `data:`, or a frame without delta or content) changes nothing. */
  lemma {:induction false} SkippedLineIsIgnored(pre: seq<string>, skipped: string, post: seq<string>, decode: string -> Option<Json>)
    requires ParseFrame(skipped, decode) == Skip
    ensures ScanFrames(pre + [skipped] + post, decode) == ScanFrames(pre + post, decode)
    decreases |pre|
  {
    if pre == [] {
      assert (pre + [skipped] + post)[1..] == post;
      assert pre + post == post;
    } else {
      assert (pre + [skipped] + post)[1..] == pre[1..] + [skipped] + post;
      assert (pre + post)[1..] == pre[1..] + post;
      SkippedLineIsIgnored(pre[1..], skipped, post, decode);
    }
  }

  /** The result of `stream_generate`: its `(code, text)` pair and the fragments handed to the display, in order. */
  datatype StreamResult = StreamResult(code: int, text: string, tokens: seq<string>)

  /** `stream_generate` as a function of the selected model, the opening outcome and the JSON decoder. */
  function StreamOutcomeOf(selected: Option<string>, net: StreamOutcome, decode: string -> Option<Json>): (r: StreamResult)
    ensures r.code == 0 ==> r.text == Concat(r.tokens)
    ensures r.code != 0 ==> r.code == 1
    ensures selected.None? ==> r == StreamResult(1, NoModelMessage, [])
    ensures selected.Some? && net.OpenRaised? ==> r == StreamResult(1, OpenFailureMessage(net.kind), [])
    ensures selected.Some? && net.Opened? && net.code != 200 ==> r == StreamResult(1, GetErrorMessage(net.code), [])
    ensures selected.Some? && net.Opened? && net.code == 200 ==> r == ScanResult(ScanFrames(net.lines, decode), net.severed)
  {
    if selected.None? then StreamResult(1, NoModelMessage, [])
    else match net
      case OpenRaised(kind) => StreamResult(1, OpenFailureMessage(kind), [])
      case Opened(code, _, lines, severed) =>
        if code != 200 then StreamResult(1, GetErrorMessage(code), [])
        else ScanResult(ScanFrames(lines, decode), severed)
  }

  /** What an opened 200 stream yields once its lines were scanned. */
  function ScanResult(scan: Scan, severed: bool): (r: StreamResult)
    ensures r.tokens == scan.fragments
    ensures r.code == 0 <==> scan.stop == DoneSeen || (scan.stop == EndOfLines && !severed)
    ensures r.code == 0 ==> r.text == Concat(r.tokens)
    ensures r.code != 0 ==> r.code == 1
    ensures scan.stop.Failed? ==> r.text == scan.stop.message
    ensures scan.stop == EndOfLines && severed ==> r.text == SeveredMessage
  {
    match scan.stop
    case Failed(m) => StreamResult(1, m, scan.fragments)
    case DoneSeen => StreamResult(0, Concat(scan.fragments), scan.fragments)
    case EndOfLines =>
      if severed then StreamResult(1, SeveredMessage, scan.fragments)
      else StreamResult(0, Concat(scan.fragments), scan.fragments)
  }

  function Prepend(fragments: seq<string>, scan: Scan): Scan {
    Scan(fragments + scan.fragments, scan.stop)
  }

  lemma PrependFragment(fragments: seq<string>, f: string, rest: Scan)
    ensures Prepend(fragments, Continue(Fragment(f), rest)) == Prepend(fragments + [f], rest)
  {
    assert fragments + ([f] + rest.fragments) == (fragments + [f]) + rest.fragments;
  }

  lemma ConcatSnoc(parts: seq<string>, f: string)
    ensures Concat(parts + [f]) == Concat(parts) + f
  {
    assert (parts + [f])[..|parts|] == parts;
  }

  /**
   * The `for line in session` loop of `stream_generate`: reads until
   * `[DONE]`, a failing frame, the end of the stream or a cut connection,
   * collecting every fragment.
   */
  method ReadFrames(session: StreamRequest, decode: string -> Option<Json>)
    returns (tokens: seq<string>, text: string, stop: Stop, raised: bool, message: string)
    requires session.Valid() && session.cursor == Some(0)
    modifies session`cursor
    ensures session.Valid() && session.cursor.Some? && session.response == old(session.response)
    ensures text == Concat(tokens)
    ensures ScanFrames(session.response.lines, decode) == Scan(tokens, stop)
    ensures raised ==> stop == EndOfLines && session.response.severed && message == SeveredMessage
    ensures stop == EndOfLines && session.response.severed ==> raised
    ensures stop.Failed? ==> !raised && message == stop.message
  {
    var resp := session.response;
    var lines := resp.lines;
    assert lines[0..] == lines;
    tokens, text := [], "";
    var finished := false;
    raised, message, stop := false, "", EndOfLines;
    while !finished
      invariant session.Valid() && session.response == resp && session.cursor.Some?
      invariant text == Concat(tokens)
      invariant !finished ==> stop == EndOfLines && !raised
      invariant !finished ==> ScanFrames(lines, decode) == Prepend(tokens, ScanFrames(lines[session.cursor.value..], decode))
      invariant finished ==> ScanFrames(lines, decode) == Scan(tokens, stop)
      invariant raised ==> stop == EndOfLines && resp.severed && message == SeveredMessage
      invariant finished && stop == EndOfLines && resp.severed ==> raised
      invariant stop.Failed? ==> !raised && message == stop.message
      decreases |lines| - session.cursor.value, !finished
    {
      ghost var k := session.cursor.value;
      var item := session.Next();
      match item
      case Exhausted =>
        assert lines[k..] == [] && tokens + [] == tokens;
        finished := true;
      case StreamError(m) =>
        assert lines[k..] == [] && tokens + [] == tokens;
        finished, raised, message := true, true, m;
      case Line(line) =>
        ScanStep(lines, k, decode);
        match ParseFrame(line, decode)
        case Skip =>
        case DoneFrame =>
          assert tokens + [] == tokens;
          finished, stop := true, DoneSeen;
        case Fail(m) =>
          assert tokens + [] == tokens;
          finished, stop, message := true, Failed(m), m;
        case Fragment(f) =>
          ConcatSnoc(tokens, f);
          PrependFragment(tokens, f, ScanFrames(lines[k + 1..], decode));
          tokens, text := tokens + [f], text + f;
    }
  }

  /**
   * `stream_generate(prompt)`: opens a session on the chat-completion URL
   * with `payload` (the JSON body naming the model and carrying the prompt)
   * as its `json` option, reads it line by line, hands every fragment to the display and
   * accumulates the raw fragments; the session it opened (`session`, none
   * without a model) is released on every path, its response closed once.
   */
  method StreamGenerate(reg: Registers, settings: Config.Settings, payload: Json, net: StreamOutcome, decode: string -> Option<Json>)
    returns (code: int, text: string, tokens: seq<string>, ghost session: StreamRequest?)
    ensures StreamResult(code, text, tokens) == StreamOutcomeOf(reg.selectedModel, net, decode)
    ensures session == null <==> reg.selectedModel.None?
    ensures session != null ==> fresh(session) && session.call == Call("POST", settings.llmUrl + Config.ChatCompletionsPath, MergeDefaults(map["json" := KwJson(payload)]))
    ensures session != null ==> (session.response != null <==> net.Opened? && net.code == 200)
    ensures session != null && session.response != null ==> session.response.closeCount == 1
  {
    if reg.selectedModel.None? {
      return 1, NoModelMessage, [], null;
    }
    var s := new StreamRequest("POST", settings.GenRequestUrl(), map["json" := KwJson(payload)], net);
    session := s;
    var failure := s.Iter();
    if failure.Some? {
      var _ := s.Exit(true);
      return 1, failure.value, [], session;
    }
    assert net.Opened? && net.code == 200;
    var stop, raised, message;
    tokens, text, stop, raised, message := ReadFrames(s, decode);
    var _ := s.Exit(raised);
    if raised || stop.Failed? {
      code, text := 1, message;
    } else {
      code := 0;
    }
  }
}
