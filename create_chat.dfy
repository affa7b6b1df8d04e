/**
 * The creation chat of app/create/CreateChat.tsx: a transcript of messages,
 * the send flow, and the reader that turns the relayed event stream into the
 * assistant's reply.
 *
 * The stream is modelled as the text chunks the decoder produced. A line
 * counts only when, trimmed, it starts with `data: ` and its trimmed payload
 * is neither empty nor `[DONE]`; the payload is handed to `parse` (the
 * application's `JSON.parse`, a parameter here). The reader splits its buffer
 * on `\n` after every chunk and carries the unterminated tail forward; the
 * central result, `ChunkBoundaryIndependence`, says that this yields exactly
 * what splitting the whole text at once would.
 */
module CreateChat {
  import opened Options
  import opened Seqs
  import opened Text
  import opened Json
  import opened Http

  datatype Role = User | Assistant

  datatype Message = Message(role: Role, content: string, id: string)

  const WELCOME_ID := "welcome"
  const DATA_PREFIX := "data: "
  const DONE_SENTINEL := "[DONE]"
  const LINE_BREAK := '\n'

  /** The greeting every transcript starts with; it names the selected style. */
  function WelcomeMessage(styleName: string): (m: Message)
    ensures m.id == WELCOME_ID && m.role == Assistant
    ensures Contains(m.content, styleName)
  {
    var lead := "Target style loaded. I'm ready to write in the style of ";
    var content := lead + styleName + ". What topic should we tackle today?";
    assert content[|lead|..|lead| + |styleName|] == styleName;
    ContainsAt(content, styleName, |lead|);
    Message(Assistant, content, WELCOME_ID)
  }

  /** Message ids are built from clock readings: `u-<ms>` for the user, `a-<ms>` for the reply. */
  function UserId(clock: nat): string {
    "u-" + NatToString(clock)
  }

  function AssistantId(clock: nat): string {
    "a-" + NatToString(clock)
  }

  /** A user message and the reply placeholder never share an id, whatever the clock said. */
  lemma IdsDiffer(sentAt: nat, placedAt: nat)
    ensures UserId(sentAt) != AssistantId(placedAt)
  {
    assert UserId(sentAt)[0] == 'u';
    assert AssistantId(placedAt)[0] == 'a';
  }

  // ---------------------------------------------------------------------------
  // One line of the event stream
  // ---------------------------------------------------------------------------

  /** The payload a line carries, if any: prefix `data: ` after trimming, payload trimmed, not empty, not `[DONE]`. */
  function Payload(line: string): (r: Option<string>)
    ensures r.Some? ==> StartsWith(Trim(line), DATA_PREFIX)
    ensures r.Some? ==> r.value != "" && r.value != DONE_SENTINEL
    ensures r.Some? ==> r.value == Trim(Trim(line)[|DATA_PREFIX|..])
    ensures Blank(line) ==> r.None?
    ensures StartsWith(Trim(line), DATA_PREFIX) ==>
      var payload := Trim(Trim(line)[|DATA_PREFIX|..]);
      payload != "" && payload != DONE_SENTINEL ==> r == Some(payload)
  {
    var trimmed := Trim(line);
    if !StartsWith(trimmed, DATA_PREFIX) then None
    else
      var raw := Trim(trimmed[|DATA_PREFIX|..]);
      if raw == DONE_SENTINEL || raw == "" then None else Some(raw)
  }

  /**
   * The event object of a line. A payload that does not parse is skipped, and
   * so is one that parses to `null` (reading a property of it throws inside the
   * same `try`).
   */
  function LineData(line: string, parse: string -> Option<Json>): Option<Json> {
    match Payload(line)
    case None => None
    case Some(raw) =>
      match parse(raw)
      case None => None
      case Some(data) => if data == JNull then None else Some(data)
  }

  /** The text an event appends: its `answer` unless that is absent, null or `""`; non-strings go through `String`. */
  function AnswerDelta(data: Json): string {
    var a := Get(data, "answer");
    if IsNullish(a) || a.value == JStr("") then "" else ToText(a.value)
  }

  /** The conversation id an event reports, if it is truthy. */
  function ConversationOf(data: Json): (r: Option<Json>)
    ensures r.Some? ==> Truthy(r.value)
  {
    var c := Get(data, "conversation_id");
    if TruthyOpt(c) then c else None
  }

  function LineAnswer(line: string, parse: string -> Option<Json>): string {
    match LineData(line, parse)
    case None => ""
    case Some(data) => AnswerDelta(data)
  }

  function LineConversation(line: string, parse: string -> Option<Json>): Option<Json> {
    match LineData(line, parse)
    case None => None
    case Some(data) => ConversationOf(data)
  }

  /** What the reader has gathered so far: the reply text and the last truthy conversation id. */
  datatype StreamAcc = StreamAcc(answer: string, conversation: Option<Json>)

  const EMPTY_ACC := StreamAcc("", None)

  /** Processing one complete line: append its delta, and let its conversation id (if any) replace the previous one. */
  function ApplyLine(acc: StreamAcc, line: string, parse: string -> Option<Json>): StreamAcc {
    var c := LineConversation(line, parse);
    StreamAcc(acc.answer + LineAnswer(line, parse), if c.Some? then c else acc.conversation)
  }

  /** Processing complete lines in arrival order. */
  function ApplyLines(acc: StreamAcc, lines: seq<string>, parse: string -> Option<Json>): StreamAcc {
    if lines == [] then acc else ApplyLine(ApplyLines(acc, AllButLast(lines), parse), Last(lines), parse)
  }

  /** The deltas of the lines, one per line (`""` for a line that contributes nothing). */
  function Deltas(lines: seq<string>, parse: string -> Option<Json>): (r: seq<string>)
    ensures |r| == |lines|
    ensures forall i :: 0 <= i < |lines| ==> r[i] == LineAnswer(lines[i], parse)
  {
    seq(|lines|, i requires 0 <= i < |lines| => LineAnswer(lines[i], parse))
  }

  lemma ApplyLinesLast(acc: StreamAcc, lines: seq<string>, parse: string -> Option<Json>)
    requires lines != []
    ensures ApplyLines(acc, lines, parse) == ApplyLine(ApplyLines(acc, AllButLast(lines), parse), Last(lines), parse)
  {
  }

  lemma DeltasInit(lines: seq<string>, parse: string -> Option<Json>)
    requires lines != []
    ensures AllButLast(Deltas(lines, parse)) == Deltas(AllButLast(lines), parse)
    ensures Last(Deltas(lines, parse)) == LineAnswer(Last(lines), parse)
  {
  }

  /** Lines processed in two batches give what processing them in one does. */
  lemma {:induction false} ApplyLinesAppend(acc: StreamAcc, a: seq<string>, b: seq<string>, parse: string -> Option<Json>)
    ensures ApplyLines(acc, a + b, parse) == ApplyLines(ApplyLines(acc, a, parse), b, parse)
    decreases |b|
  {
    if b == [] {
      assert a + b == a;
    } else {
      assert AllButLast(a + b) == a + AllButLast(b);
      assert Last(a + b) == Last(b);
      ApplyLinesAppend(acc, a, AllButLast(b), parse);
      ApplyLinesLast(acc, a + b, parse);
      ApplyLinesLast(ApplyLines(acc, a, parse), b, parse);
    }
  }

  /**
   * The reply is the old text followed by every line's delta, in arrival order;
   * nothing is reordered, dropped or rewritten.
   */
  lemma {:induction false} ApplyLinesAnswer(acc: StreamAcc, lines: seq<string>, parse: string -> Option<Json>)
    ensures ApplyLines(acc, lines, parse).answer == acc.answer + Concat(Deltas(lines, parse))
    decreases |lines|
  {
    if lines != [] {
      var d := Deltas(lines, parse);
      ApplyLinesAnswer(acc, AllButLast(lines), parse);
      ApplyLinesLast(acc, lines, parse);
      DeltasInit(lines, parse);
      assert Concat(d) == Concat(AllButLast(d)) + Last(d);
    }
  }

  /**
   * A conversation id, once seen, is never cleared by later lines; and the last
   * line that reports one decides it.
   */
  lemma {:induction false} ConversationKept(acc: StreamAcc, lines: seq<string>, parse: string -> Option<Json>)
    ensures acc.conversation.Some? ==> ApplyLines(acc, lines, parse).conversation.Some?
    ensures lines != [] && LineConversation(Last(lines), parse).Some? ==>
      ApplyLines(acc, lines, parse).conversation == LineConversation(Last(lines), parse)
    ensures ApplyLines(acc, lines, parse).conversation.Some? ==>
      ApplyLines(acc, lines, parse).conversation == acc.conversation ||
      exists i :: 0 <= i < |lines| && ApplyLines(acc, lines, parse).conversation == LineConversation(lines[i], parse)
    decreases |lines|
  {
    if lines != [] {
      ConversationKept(acc, AllButLast(lines), parse);
      var c := ApplyLines(acc, lines, parse).conversation;
      if c.Some? && c != acc.conversation && LineConversation(Last(lines), parse).None? {
        var i :| 0 <= i < |lines| - 1 && c == LineConversation(AllButLast(lines)[i], parse);
        assert AllButLast(lines)[i] == lines[i];
      }
    }
  }

  // ---------------------------------------------------------------------------
  // Chunks: the buffer carried across reads
  // ---------------------------------------------------------------------------

  /** The reader's state between reads: the unterminated tail and what the complete lines gave. */
  datatype Reader = Reader(buffer: string, acc: StreamAcc)

  /** One read: append the chunk to the buffer, process every complete line, keep the tail. */
  function Feed(r: Reader, chunk: string, parse: string -> Option<Json>): Reader {
    var lines := Split(r.buffer + chunk, {LINE_BREAK});
    Reader(Last(lines), ApplyLines(r.acc, AllButLast(lines), parse))
  }

  function FeedAll(chunks: seq<string>, parse: string -> Option<Json>): Reader {
    if chunks == [] then Reader("", EMPTY_ACC) else Feed(FeedAll(AllButLast(chunks), parse), Last(chunks), parse)
  }

  /** End of stream: a non-blank leftover is processed as one last line. */
  function Finish(r: Reader, parse: string -> Option<Json>): StreamAcc {
    if Blank(r.buffer) then r.acc else ApplyLine(r.acc, r.buffer, parse)
  }

  /** The reference reading: the whole decoded text split into lines at once, every piece processed. */
  function Reassemble(text: string, parse: string -> Option<Json>): StreamAcc {
    ApplyLines(EMPTY_ACC, Split(text, {LINE_BREAK}), parse)
  }

  /** After any number of reads, the buffer is the last piece of the text so far and every earlier piece has been processed. */
  lemma {:induction false} FeedAllSplits(chunks: seq<string>, parse: string -> Option<Json>)
    ensures FeedAll(chunks, parse).buffer == Last(Split(Concat(chunks), {LINE_BREAK}))
    ensures FeedAll(chunks, parse).acc == ApplyLines(EMPTY_ACC, AllButLast(Split(Concat(chunks), {LINE_BREAK})), parse)
    decreases |chunks|
  {
    if chunks != [] {
      var init := AllButLast(chunks);
      var x := Concat(init);
      var c := Last(chunks);
      var prev := FeedAll(init, parse);
      FeedAllSplits(init, parse);
      var sx := Split(x, {LINE_BREAK});
      var tail := Split(Last(sx) + c, {LINE_BREAK});
      var whole := Split(Concat(chunks), {LINE_BREAK});
      assert whole == AllButLast(sx) + tail by {
        assert Concat(chunks) == x + c;
        SplitAppend(x, c, {LINE_BREAK});
      }
      FeedStep(prev, c, parse);
      assert AllButLast(whole) == AllButLast(sx) + AllButLast(tail);
      ApplyLinesAppend(EMPTY_ACC, AllButLast(sx), AllButLast(tail), parse);
    }
  }

  lemma FeedStep(r: Reader, chunk: string, parse: string -> Option<Json>)
    ensures Feed(r, chunk, parse).buffer == Last(Split(r.buffer + chunk, {LINE_BREAK}))
    ensures Feed(r, chunk, parse).acc == ApplyLines(r.acc, AllButLast(Split(r.buffer + chunk, {LINE_BREAK})), parse)
  {
  }

  /**
   * Chunk-boundary independence: however the decoded text is cut into chunks,
   * the reader ends with the reply and conversation id of the whole text.
   */
  lemma ChunkBoundaryIndependence(chunks: seq<string>, parse: string -> Option<Json>)
    ensures Finish(FeedAll(chunks, parse), parse) == Reassemble(Concat(chunks), parse)
  {
    FeedAllSplits(chunks, parse);
    var pieces := Split(Concat(chunks), {LINE_BREAK});
    assert pieces[..|pieces| - 1] == AllButLast(pieces);
  }

  // ---------------------------------------------------------------------------
  // The transcript
  // ---------------------------------------------------------------------------

  /** `prev.map(m => m.id === id ? {...m, content: m.content + delta} : m)`. */
  function AppendTo(ms: seq<Message>, id: string, delta: string): (r: seq<Message>)
    ensures |r| == |ms|
    ensures forall i :: 0 <= i < |ms| ==> r[i].id == ms[i].id && r[i].role == ms[i].role
    ensures forall i :: 0 <= i < |ms| && ms[i].id != id ==> r[i] == ms[i]
    ensures forall i :: 0 <= i < |ms| && ms[i].id == id ==> r[i].content == ms[i].content + delta
  {
    seq(|ms|, i requires 0 <= i < |ms| => if ms[i].id == id then ms[i].(content := ms[i].content + delta) else ms[i])
  }

  /** Two appends to the same message are one append of both deltas, in order; appending nothing changes nothing. */
  lemma AppendToCompose(ms: seq<Message>, id: string, a: string, b: string)
    ensures AppendTo(AppendTo(ms, id, a), id, b) == AppendTo(ms, id, a + b)
    ensures AppendTo(ms, id, "") == ms
  {
    var l := AppendTo(AppendTo(ms, id, a), id, b);
    var r := AppendTo(ms, id, a + b);
    forall i | 0 <= i < |ms| ensures l[i] == r[i] {
      if ms[i].id == id {
        assert ms[i].content + a + b == ms[i].content + (a + b);
      }
    }
    var e := AppendTo(ms, id, "");
    forall i | 0 <= i < |ms| ensures e[i] == ms[i] {
      if ms[i].id == id {
        assert ms[i].content + "" == ms[i].content;
      }
    }
  }

  /** `prev.filter(m => m.id !== id)`. */
  function RemoveId(ms: seq<Message>, id: string): (r: seq<Message>)
    ensures forall m :: m in r <==> m in ms && m.id != id
    ensures IsSubsequence(r, ms)
  {
    Filter(ms, (m: Message) => m.id != id)
  }

  /** Removing a message after appending to it leaves no trace of the appended text. */
  lemma {:induction false} RemoveAfterAppend(ms: seq<Message>, id: string, delta: string)
    ensures RemoveId(AppendTo(ms, id, delta), id) == RemoveId(ms, id)
    decreases |ms|
  {
    if ms != [] {
      var t := AppendTo(ms, id, delta);
      assert t[1..] == AppendTo(ms[1..], id, delta);
      RemoveAfterAppend(ms[1..], id, delta);
    }
  }

  /**
   * A failed send leaves the transcript as it was plus the user's question:
   * only the placeholder goes, provided no earlier message had its id.
   */
  lemma FailedSendKeepsQuestion(ms: seq<Message>, question: Message, aid: string)
    requires question.id != aid
    requires forall i :: 0 <= i < |ms| ==> ms[i].id != aid
    ensures RemoveId(ms + [question, Message(Assistant, "", aid)], aid) == ms + [question]
  {
    var keep := (m: Message) => m.id != aid;
    assert ms + [question, Message(Assistant, "", aid)] == ms + [question] + [Message(Assistant, "", aid)];
    FilterAppend(ms + [question], [Message(Assistant, "", aid)], keep);
    FilterAll(ms + [question], keep);
    assert Filter([Message(Assistant, "", aid)], keep) == [];
  }

  // ---------------------------------------------------------------------------
  // The send flow
  // ---------------------------------------------------------------------------

  /** What a rejected promise carries: an `Error` with its message, or some other value. */
  datatype Thrown = ErrorObject(message: string) | OtherValue

  /** `err instanceof Error ? err.message : 'Something went wrong'`. */
  function ThrownText(t: Thrown): string {
    match t
    case ErrorObject(m) => m
    case OtherValue => "Something went wrong"
  }

  /** A readable body: the decoded chunks that `read()` delivers, and what the read after them throws, if anything. */
  datatype Stream = Stream(chunks: seq<string>, readFailure: Option<Thrown>)

  /** What `fetch('/api/chat', ...)` produced. `errorBody` is the JSON body (None when it is not JSON). */
  datatype ChatReply =
    | FetchRejected(reason: Thrown)
    | Responded(status: nat, errorBody: Option<Json>, body: Option<Stream>)

  /**
   * The message of the error thrown for a non-ok reply: the body's truthy
   * `error` member, else `Request failed (<status>)`. A body that is JSON
   * `null` makes the property read itself throw.
   */
  function NotOkError(status: nat, errorBody: Option<Json>): string {
    if errorBody == Some(JNull) then "Cannot read properties of null (reading 'error')"
    else
      var e := if errorBody.Some? then Get(errorBody.value, "error") else None;
      if TruthyOpt(e) then ToText(e.value) else "Request failed (" + NatToString(status) + ")"
  }

  lemma AppendTwo<T>(s: seq<T>, a: T, b: T)
    ensures s + [a] + [b] == s + [a, b]
  {
  }

  /** The JSON body posted to the relay. */
  function RequestBody(message: string, conversationId: Option<Json>, styleConfig: Json): (r: Json)
    ensures Get(r, "message") == Some(JStr(message))
    ensures Get(r, "conversation_id") == Some(conversationId.GetOr(JNull))
    ensures Get(r, "style_config") == Some(styleConfig)
  {
    var fields := [("message", JStr(message)), ("conversation_id", conversationId.GetOr(JNull)), ("style_config", styleConfig)];
    assert Lookup(fields[..1], "message") == Some(JStr(message));
    assert Lookup(fields[..2], "message") == Some(JStr(message)) by {
      assert AllButLast(fields[..2]) == fields[..1];
    }
    assert Lookup(fields, "message") == Some(JStr(message)) by {
      assert AllButLast(fields) == fields[..2];
    }
    assert Lookup(fields[..2], "conversation_id") == Some(conversationId.GetOr(JNull));
    assert Lookup(fields, "conversation_id") == Some(conversationId.GetOr(JNull)) by {
      assert AllButLast(fields) == fields[..2];
    }
    JObj(fields)
  }

  /** The transcript, error and conversation id once a reply has been handled. */
  datatype Settlement = Settlement(messages: seq<Message>, error: Option<string>, conversationId: Option<Json>)

  /** Whether a reply ends in the `catch` branch. */
  predicate Fails(reply: ChatReply) {
    match reply
    case FetchRejected(_) => true
    case Responded(status, _, body) => !IsOk(status) || (body.Some? && body.value.readFailure.Some?)
  }

  /**
   * How a reply settles a transcript that ends in the placeholder `aid`: a
   * rejected fetch, a non-ok status or a failing read removes the placeholder
   * (with whatever it had received) and reports the error; a missing body
   * keeps the empty placeholder; a stream fills the placeholder with the
   * reassembled reply and commits its conversation id, if it carried one.
   */
  function SettleReply(reply: ChatReply, base: seq<Message>, aid: string, conversation: Option<Json>,
                       parse: string -> Option<Json>): (r: Settlement)
    ensures r.error.Some? <==> Fails(reply)
    ensures Fails(reply) ==> r.messages == RemoveId(base, aid) && r.conversationId == conversation
    ensures !Fails(reply) ==> |r.messages| == |base|
    ensures !Fails(reply) ==>
      forall i :: 0 <= i < |base| ==> r.messages[i].id == base[i].id && (base[i].id != aid ==> r.messages[i] == base[i])
    ensures r.conversationId != conversation ==> r.conversationId.Some? && Truthy(r.conversationId.value)
    ensures reply.FetchRejected? ==> r.error == Some(ThrownText(reply.reason))
    ensures reply.Responded? && !IsOk(reply.status) ==> r.error == Some(NotOkError(reply.status, reply.errorBody))
    ensures reply.Responded? && IsOk(reply.status) && reply.body.Some? && reply.body.value.readFailure.Some? ==>
      r.error == Some(ThrownText(reply.body.value.readFailure.value))
    ensures reply.Responded? && IsOk(reply.status) && reply.body.None? ==> r == Settlement(base, None, conversation)
    ensures reply.Responded? && IsOk(reply.status) && reply.body.Some? && reply.body.value.readFailure.None? ==>
      var whole := Reassemble(Concat(reply.body.value.chunks), parse);
      && r.messages == AppendTo(base, aid, whole.answer)
      && r.conversationId == (if whole.conversation.Some? then whole.conversation else conversation)
  {
    match reply
    case FetchRejected(t) => Settlement(RemoveId(base, aid), Some(ThrownText(t)), conversation)
    case Responded(status, errorBody, body) =>
      if !IsOk(status) then Settlement(RemoveId(base, aid), Some(NotOkError(status, errorBody)), conversation)
      else if body.None? then Settlement(base, None, conversation)
      else if body.value.readFailure.Some? then
        Settlement(RemoveId(base, aid), Some(ThrownText(body.value.readFailure.value)), conversation)
      else
        var whole := Reassemble(Concat(body.value.chunks), parse);
        ReassembledConversationTruthy(body.value.chunks, parse);
        Settlement(AppendTo(base, aid, whole.answer), None,
                   if whole.conversation.Some? then whole.conversation else conversation)
  }

  /**
   * A send whose stream is read to the end leaves the earlier transcript, the
   * question, and the placeholder holding the whole reassembled reply.
   */
  lemma StreamedReplyInPlaceholder(ms: seq<Message>, question: Message, aid: string, status: nat,
                                   errorBody: Option<Json>, chunks: seq<string>, conversation: Option<Json>,
                                   parse: string -> Option<Json>)
    requires forall m :: m in ms ==> m.id != aid
    requires question.id != aid && IsOk(status)
    ensures var answer := Reassemble(Concat(chunks), parse).answer;
      SettleReply(Responded(status, errorBody, Some(Stream(chunks, None))), ms + [question, Message(Assistant, "", aid)],
                  aid, conversation, parse).messages
      == ms + [question, Message(Assistant, answer, aid)]
  {
    var answer := Reassemble(Concat(chunks), parse).answer;
    FillPlaceholder(ms, question, aid, answer);
  }

  /** Appending to the placeholder at the end of a transcript fills that message only. */
  lemma FillPlaceholder(ms: seq<Message>, question: Message, aid: string, answer: string)
    requires forall m :: m in ms ==> m.id != aid
    requires question.id != aid
    ensures AppendTo(ms + [question, Message(Assistant, "", aid)], aid, answer)
            == ms + [question, Message(Assistant, answer, aid)]
  {
    var base := ms + [question, Message(Assistant, "", aid)];
    var r := AppendTo(base, aid, answer);
    var expected := ms + [question, Message(Assistant, answer, aid)];
    forall i | 0 <= i < |base| ensures r[i] == expected[i] {
      if i < |ms| {
        assert base[i] == ms[i] && ms[i] in ms;
      }
    }
  }

  /** The conversation id a stream reports is always a truthy value. */
  lemma {:induction false} ReassembledConversationTruthy(chunks: seq<string>, parse: string -> Option<Json>)
    ensures var c := Reassemble(Concat(chunks), parse).conversation; c.Some? ==> Truthy(c.value)
  {
    var lines := Split(Concat(chunks), {LINE_BREAK});
    ConversationKept(EMPTY_ACC, lines, parse);
  }

  class ChatView {
    const styleName: string
    const styleConfig: Json
    var messages: seq<Message>
    var input: string
    var loading: bool
    var conversationId: Option<Json>
    var error: Option<string>

    constructor (styleName: string, styleConfig: Json)
      ensures this.styleName == styleName && this.styleConfig == styleConfig
      ensures messages == [WelcomeMessage(styleName)]
      ensures input == "" && !loading && conversationId == None && error == None
    {
      this.styleName := styleName;
      this.styleConfig := styleConfig;
      messages := [WelcomeMessage(styleName)];
      input := "";
      loading := false;
      conversationId := None;
      error := None;
    }

    /** `resetChat`: back to the welcome message, no conversation, no error. */
    method ResetChat()
      modifies this
      ensures messages == [WelcomeMessage(styleName)] && conversationId == None && error == None
      ensures input == old(input) && loading == old(loading)
    {
      messages := [WelcomeMessage(styleName)];
      conversationId := None;
      error := None;
    }

    /** The body of the `for (const line of lines)` loop: one line's effect on the placeholder and the pending id. */
    method HandleLine(line: string, assistantId: string, conversation: Option<Json>, parse: string -> Option<Json>)
      returns (next: Option<Json>)
      modifies this`messages
      ensures next == ApplyLine(StreamAcc("", conversation), line, parse).conversation
      ensures messages == AppendTo(old(messages), assistantId, LineAnswer(line, parse))
    {
      AppendToCompose(messages, assistantId, "", "");
      next := conversation;
      var trimmed := Trim(line);
      if !StartsWith(trimmed, DATA_PREFIX) {
        assert LineData(line, parse) == None;
        return;
      }
      var raw := Trim(trimmed[|DATA_PREFIX|..]);
      if raw == DONE_SENTINEL || raw == "" {
        assert LineData(line, parse) == None;
        return;
      }
      assert Payload(line) == Some(raw);
      var parsed := parse(raw);
      if parsed.None? || parsed.value == JNull {
        assert LineData(line, parse) == None;
        return;
      }
      var data := parsed.value;
      assert LineData(line, parse) == Some(data);
      var c := Get(data, "conversation_id");
      if TruthyOpt(c) {
        next := c;
      }
      var a := Get(data, "answer");
      if !IsNullish(a) && a.value != JStr("") {
        var delta := ToText(a.value);
        messages := AppendTo(messages, assistantId, delta);
      }
    }

    /**
     * The `while (true)` read loop and the leftover flush. Without a failure the
     * placeholder ends with the reply of the whole text and the returned id is
     * its last truthy conversation id; a failing read stops after the chunks
     * delivered before it, without the flush.
     */
    method ReadStream(stream: Stream, assistantId: string, parse: string -> Option<Json>)
      returns (thrown: Option<Thrown>, newConversationId: Option<Json>)
      modifies this`messages
      ensures thrown == stream.readFailure
      ensures thrown.None? ==>
        var whole := Reassemble(Concat(stream.chunks), parse);
        messages == AppendTo(old(messages), assistantId, whole.answer) && newConversationId == whole.conversation
      ensures thrown.Some? ==>
        messages == AppendTo(old(messages), assistantId, FeedAll(stream.chunks, parse).acc.answer)
    {
      var chunks := stream.chunks;
      var buffer := "";
      newConversationId := None;
      ghost var answer := "";
      ghost var base := messages;
      AppendToCompose(base, assistantId, "", "");
      var i := 0;
      while i < |chunks|
        invariant 0 <= i <= |chunks|
        invariant FeedAll(chunks[..i], parse) == Reader(buffer, StreamAcc(answer, newConversationId))
        invariant messages == AppendTo(base, assistantId, answer)
      {
        ghost var before := Reader(buffer, StreamAcc(answer, newConversationId));
        buffer := buffer + chunks[i];
        var lines := Split(buffer, {LINE_BREAK});
        buffer := lines[|lines| - 1];
        var j := 0;
        while j < |lines| - 1
          invariant 0 <= j <= |lines| - 1
          invariant ApplyLines(before.acc, lines[..j], parse) == StreamAcc(answer, newConversationId)
          invariant messages == AppendTo(base, assistantId, answer)
        {
          newConversationId := HandleLine(lines[j], assistantId, newConversationId, parse);
          AppendToCompose(base, assistantId, answer, LineAnswer(lines[j], parse));
          answer := answer + LineAnswer(lines[j], parse);
          assert AllButLast(lines[..j + 1]) == lines[..j];
          j := j + 1;
        }
        assert lines[..|lines| - 1] == AllButLast(lines);
        assert AllButLast(chunks[..i + 1]) == chunks[..i];
        i := i + 1;
      }
      assert chunks[..i] == chunks;
      if stream.readFailure.Some? {
        return stream.readFailure, newConversationId;
      }
      if !Blank(buffer) {
        newConversationId := HandleLine(buffer, assistantId, newConversationId, parse);
        AppendToCompose(base, assistantId, answer, LineAnswer(buffer, parse));
        answer := answer + LineAnswer(buffer, parse);
      }
      ChunkBoundaryIndependence(chunks, parse);
      thrown := None;
    }

    /** The `try`/`catch` around the request: what the reply does to a transcript ending in the placeholder. */
    method Settle(reply: ChatReply, assistantId: string, parse: string -> Option<Json>)
      requires error == None
      modifies this`messages, this`error, this`conversationId
      ensures Settlement(messages, error, conversationId) ==
              SettleReply(reply, old(messages), assistantId, old(conversationId), parse)
    {
      match reply {
        case FetchRejected(t) =>
          error := Some(ThrownText(t));
          messages := RemoveId(messages, assistantId);
        case Responded(status, errorBody, body) =>
          if !IsOk(status) {
            error := Some(NotOkError(status, errorBody));
            messages := RemoveId(messages, assistantId);
          } else if body.Some? {
            ghost var base := messages;
            var thrown, newConversationId := ReadStream(body.value, assistantId, parse);
            if thrown.Some? {
              error := Some(ThrownText(thrown.value));
              RemoveAfterAppend(base, assistantId, FeedAll(body.value.chunks, parse).acc.answer);
              messages := RemoveId(messages, assistantId);
            } else if newConversationId.Some? {
              conversationId := newConversationId;
            }
          }
      }
    }

    /** The synchronous part of a send: the user message and the placeholder are appended and the request built. */
    method Post(text: string, sentAt: nat, placedAt: nat) returns (request: Option<Json>)
      modifies this`messages, this`input, this`loading, this`error
      ensures messages ==
        old(messages) + [Message(User, Trim(text), UserId(sentAt)), Message(Assistant, "", AssistantId(placedAt))]
      ensures request == Some(RequestBody(Trim(text), conversationId, styleConfig))
      ensures input == "" && loading && error == None
    {
      var trimmed := Trim(text);
      var question := Message(User, trimmed, UserId(sentAt));
      messages := messages + [question];
      input := "";
      loading := true;
      error := None;
      var placeholder := Message(Assistant, "", AssistantId(placedAt));
      messages := messages + [placeholder];
      AppendTwo(old(messages), question, placeholder);
      request := Some(RequestBody(trimmed, conversationId, styleConfig));
    }

    /**
     * `sendMessage(text)`. A blank text, or a send while a reply is loading, does
     * nothing. Otherwise the trimmed text is appended as a user message and an
     * empty placeholder follows it; the request is posted; the reply settles the
     * transcript as `SettleReply` says. Loading always ends.
     */
    method SendMessage(text: string, sentAt: nat, placedAt: nat, reply: ChatReply, parse: string -> Option<Json>)
      returns (request: Option<Json>)
      modifies this
      ensures Blank(text) || old(loading) ==>
        request == None && messages == old(messages) && input == old(input) && loading == old(loading) &&
        conversationId == old(conversationId) && error == old(error)
      ensures !(Blank(text) || old(loading)) ==>
        request == Some(RequestBody(Trim(text), old(conversationId), styleConfig)) && input == "" && !loading
      ensures !(Blank(text) || old(loading)) ==>
        var aid := AssistantId(placedAt);
        Settlement(messages, error, conversationId) ==
        SettleReply(reply, old(messages) + [Message(User, Trim(text), UserId(sentAt)), Message(Assistant, "", aid)],
                    aid, old(conversationId), parse)
    {
      if Blank(text) || loading {
        return None;
      }
      request := Post(text, sentAt, placedAt);
      Settle(reply, AssistantId(placedAt), parse);
      loading := false;
    }
  }
}
