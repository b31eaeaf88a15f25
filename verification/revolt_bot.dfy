/** The Revolt side of the relay (server/bot/revolt.ts): the ready flag and
    the client events that drive it, `sendMessage` with its ready gate,
    channel check, masquerade object and reply quote, and the inbound
    message filter that selects a bridge and runs the relay callback.

    The client library is not modelled: each collaborator call is an input
    outcome, and each event is one application of a function. */
module RevoltBot {
  import opened Wrappers
  import opened Js
  import opened Logs
  import opened Shared
  import Seqs

  const NotReadyError := "Revolt bot not ready"
  const InvalidChannelError := "Invalid channel or missing permissions"
  const SendFailedMessage := "Failed to send Revolt message"
  const ProcessFailedMessage := "Failed to process Revolt message"

  // ---------------------------------------------------------------------
  // Ready state
  // ---------------------------------------------------------------------

  /** The bot's only mutable state: whether the client has emitted `ready`. */
  datatype State = State(ready: bool)

  /** A state together with the records appended while reaching it. */
  datatype Step = Step(state: State, logs: seq<LogRecord>)

  /** What the client can report after construction. */
  datatype ClientEvent =
    | ReadyEvent
    | ErrorEvent(error: string)
    | LoginRejected(error: string)

  /** The constructor: not ready yet, two info records, login started. */
  function Create(): (r: Step)
    ensures !r.state.ready
    ensures |r.logs| == 2 && CountLevel(r.logs, Info) == 2
    ensures forall i :: 0 <= i < |r.logs| ==> r.logs[i].level == Info
  {
    Step(State(false), [Record(Info, "Creating Revolt bot instance"), Record(Info, "Attempting Revolt bot login")])
  }

  /** One client event: `ready` sets the flag, errors only log. */
  function OnEvent(s: State, e: ClientEvent): (r: Step)
    ensures r.state.ready <==> s.ready || e.ReadyEvent?
    ensures |r.logs| == 1
    ensures r.logs[0].level == Error <==> !e.ReadyEvent?
  {
    match e
    case ReadyEvent => Step(State(true), [Record(Info, "Revolt bot ready")])
    case ErrorEvent(_) => Step(s, [Record(Error, "Revolt bot error")])
    case LoginRejected(_) => Step(s, [Record(Error, "Revolt bot login failed")])
  }

  /** A sequence of client events applied in order. */
  function RunEvents(s: State, es: seq<ClientEvent>): (r: Step)
    ensures |r.logs| == |es|
    ensures s.ready ==> r.state.ready
    decreases |es|
  {
    if |es| == 0 then Step(s, [])
    else
      var first := OnEvent(s, es[0]);
      var rest := RunEvents(first.state, es[1..]);
      Step(rest.state, first.logs + rest.logs)
  }

  /** The flag is set exactly when a `ready` event has been seen: no other
      event sets it and nothing ever clears it. */
  lemma {:induction false} ReadyIffReadySeen(s: State, es: seq<ClientEvent>)
    ensures RunEvents(s, es).state.ready <==> s.ready || exists i :: 0 <= i < |es| && es[i].ReadyEvent?
    decreases |es|
  {
    if |es| > 0 {
      var first := OnEvent(s, es[0]);
      ReadyIffReadySeen(first.state, es[1..]);
      if exists i :: 0 <= i < |es[1..]| && es[1..][i].ReadyEvent? {
        var i :| 0 <= i < |es[1..]| && es[1..][i].ReadyEvent?;
        assert es[i + 1].ReadyEvent?;
      }
      if exists i :: 0 <= i < |es| && es[i].ReadyEvent? {
        var i :| 0 <= i < |es| && es[i].ReadyEvent?;
        if i > 0 {
          assert es[1..][i - 1].ReadyEvent?;
        }
      }
    }
  }

  /** From construction, the bot is ready exactly when a `ready` event has
      arrived, however many errors came before or after it. */
  lemma ReadyAfterStartup(es: seq<ClientEvent>)
    ensures RunEvents(Create().state, es).state.ready <==> exists i :: 0 <= i < |es| && es[i].ReadyEvent?
  {
    ReadyIffReadySeen(Create().state, es);
  }

  // ---------------------------------------------------------------------
  // sendMessage
  // ---------------------------------------------------------------------

  /** `{ name, avatar? }` of the outgoing message. */
  datatype MasqueradeData = MasqueradeData(name: string, avatar: Option<string>)

  /** The object handed to `channel.sendMessage`. */
  datatype MessageData = MessageData(content: string, masquerade: Option<MasqueradeData>, replies: Option<seq<string>>)

  /** Result of `client.channels.get(channelId)`. */
  datatype ChannelLookup = NoChannel | NotSendable | Sendable

  /** Result of `channel.getMessage(replyToId)`: the referenced message's
      author name and content (either may be undefined), a falsy result, or
      a rejection. */
  datatype ReplyFetch =
    | Fetched(author: Option<string>, content: Option<string>)
    | NotFound
    | FetchFailed(error: string)

  /** Everything `sendMessage` learns from the client while it runs. */
  datatype SendEnv = SendEnv(channel: ChannelLookup, reply: ReplyFetch, delivery: Result<string, string>)

  /** What one `sendMessage` call did: its outcome (the new message id, or
      the error it throws), the data it submitted, if any, and its records. */
  datatype SendReport = SendReport(outcome: Result<string, string>, submitted: Option<MessageData>, logs: seq<LogRecord>)

  /** The masquerade object: present only when a username is given, with
      the avatar only when that is non-empty too. */
  function MasqueradeFor(opts: SendOptions): (r: Option<MasqueradeData>)
    ensures r.Some? <==> Truthy(opts.username)
    ensures r.Some? ==> r.value.name == opts.username.value && r.value.name != ""
    ensures r.Some? ==> (r.value.avatar.Some? <==> Truthy(opts.avatarUrl))
    ensures r.Some? && r.value.avatar.Some? ==> r.value.avatar == opts.avatarUrl && r.value.avatar.value != ""
  {
    if Truthy(opts.username) then
      Some(MasqueradeData(opts.username.value, if Truthy(opts.avatarUrl) then opts.avatarUrl else None))
    else None
  }

  /** `replyMessage.content?.split('\n')[0]`: undefined stays undefined,
      text gives its first line. */
  function Excerpt(quoted: Option<string>): (r: Option<string>)
    ensures r.Some? <==> quoted.Some?
    ensures r.Some? ==> r.value <= quoted.value && '\n' !in r.value
    // the whole first line: it stops only at a line feed or the end
    ensures r.Some? && |r.value| < |quoted.value| ==> quoted.value[|r.value|] == '\n'
  {
    match quoted
    case Some(q) => Some(FirstLine(q))
    case None => None
  }

  /** The reply preview: a quote line naming the replied-to author and the
      first line of the replied-to text, then the relayed content. */
  function ReplyPreview(author: Option<string>, quoted: Option<string>, content: string): (r: string)
    ensures |r| > 4 && r[..4] == "> **"
    ensures |content| < |r| && r[|r| - |content| - 1..] == "\n" + content
  {
    "> **" + Render(author) + ":** " + Render(Excerpt(quoted)) + "\n" + content
  }

  /** The preview's first line is the quote line and the rest is the relayed
      content verbatim, as long as the author name is a single line. */
  lemma PreviewRoundTrip(author: Option<string>, quoted: Option<string>, content: string)
    requires '\n' !in Render(author)
    ensures FirstLine(ReplyPreview(author, quoted, content)) == "> **" + Render(author) + ":** " + Render(Excerpt(quoted))
    ensures AfterFirstLine(ReplyPreview(author, quoted, content)) == content
  {
    var head := "> **" + Render(author) + ":** " + Render(Excerpt(quoted));
    assert '\n' !in Render(Excerpt(quoted));
    assert forall k :: 0 <= k < |head| ==> head[k] != '\n' by {
      forall k | 0 <= k < |head|
        ensures head[k] != '\n'
      {
        var a := "> **" + Render(author);
        if k < |a| {
          if k >= 4 {
            assert head[k] == Render(author)[k - 4];
          }
        } else if k >= |a| + 4 {
          assert head[k] == Render(Excerpt(quoted))[k - |a| - 4];
        }
      }
    }
    assert ReplyPreview(author, quoted, content) == head + "\n" + content;
    SplitJoin(head, content);
  }

  /** The reply step of `sendMessage`: quote and link the referenced message
      when it was fetched, log one warning when the fetch failed. */
  function WithReply(data: MessageData, content: string, replyToId: Option<string>, fetch: ReplyFetch): (r: (MessageData, seq<LogRecord>))
    // one warning iff an id is given and the fetch was rejected
    ensures |r.1| == (if Truthy(replyToId) && fetch.FetchFailed? then 1 else 0)
    ensures CountLevel(r.1, Warn) == |r.1| && CountLevel(r.1, Error) == 0 && CountLevel(r.1, Info) == 0
    // content and replies change iff an id is given and the message was fetched
    ensures Truthy(replyToId) && fetch.Fetched? ==>
              r.0 == data.(content := ReplyPreview(fetch.author, fetch.content, content), replies := Some([replyToId.value]))
    ensures !(Truthy(replyToId) && fetch.Fetched?) ==> r.0 == data
  {
    if !Truthy(replyToId) then (data, [])
    else
      match fetch
      case Fetched(author, quoted) =>
        (data.(content := ReplyPreview(author, quoted, content), replies := Some([replyToId.value])), [])
      case NotFound => (data, [])
      case FetchFailed(_) => (data, WriteOne([], Record(Warn, "Failed to fetch reply message in Revolt")))
  }

  /** Whether `sendMessage` quotes and links the replied-to message. */
  predicate Quotes(opts: SendOptions, env: SendEnv) {
    Truthy(opts.replyToId) && env.reply.Fetched?
  }

  /** `RevoltBot.sendMessage(channelId, content, options)`. */
  function SendMessage(s: State, channelId: string, content: string, opts: SendOptions, env: SendEnv): (r: SendReport)
    // ready gate: fail before any channel lookup, one error record
    ensures !s.ready ==> r.outcome == Failure(NotReadyError) && r.submitted.None? &&
                         |r.logs| == 1 && r.logs[0].level == Error
    // unusable channel: fail, one error record, nothing submitted
    ensures s.ready && !env.channel.Sendable? ==>
              r.outcome == Failure(InvalidChannelError) && r.submitted.None? &&
              |r.logs| == 1 && r.logs[0].level == Error
    // usable channel: submit, and the outcome is the delivery's
    ensures s.ready && env.channel.Sendable? ==> r.submitted.Some? && r.outcome == env.delivery
    // masquerade present iff a username is given; avatar only when non-empty
    ensures r.submitted.Some? ==>
              (r.submitted.value.masquerade.Some? <==> Truthy(opts.username)) &&
              (r.submitted.value.masquerade.Some? ==>
                 r.submitted.value.masquerade.value.name == opts.username.value &&
                 (Truthy(opts.avatarUrl) ==> r.submitted.value.masquerade.value.avatar == opts.avatarUrl) &&
                 (!Truthy(opts.avatarUrl) ==> r.submitted.value.masquerade.value.avatar.None?))
    // reply quote and linkage only when the referenced message was fetched
    ensures r.submitted.Some? && Quotes(opts, env) ==>
              r.submitted.value.content == ReplyPreview(env.reply.author, env.reply.content, content) &&
              r.submitted.value.replies == Some([opts.replyToId.value])
    ensures r.submitted.Some? && !Quotes(opts, env) ==>
              r.submitted.value.content == content && r.submitted.value.replies.None?
    // exactly one warning, and only for a failed reply fetch
    ensures CountLevel(r.logs, Warn) ==
              (if s.ready && env.channel.Sendable? && Truthy(opts.replyToId) && env.reply.FetchFailed? then 1 else 0)
    // no error record on success, exactly one on failure
    ensures CountLevel(r.logs, Error) == (if r.outcome.Failure? then 1 else 0)
    // every call ends with one record telling how it went
    ensures |r.logs| > 0 && (r.logs[|r.logs| - 1].level == Error <==> r.outcome.Failure?)
    ensures r.outcome.Success? ==> r.logs[|r.logs| - 1].flags == map["isReply" := Truthy(opts.replyToId)]
  {
    if !s.ready then
      var notReady := Record(Error, "Attempted to send message before Revolt bot was ready");
      Single(notReady);
      SendReport(Failure(NotReadyError), None, [notReady])
    else if !env.channel.Sendable? then
      Single(Record(Error, SendFailedMessage));
      SendReport(Failure(InvalidChannelError), None, [Record(Error, SendFailedMessage)])
    else Submit(content, opts, env)
  }

  /** The records of a send past the channel check: the attempt, the reply
      step's warnings, then one record for how the delivery went. */
  function SendLogs(opts: SendOptions, warnings: seq<LogRecord>, delivery: Result<string, string>): (r: seq<LogRecord>)
    ensures |r| > 0
    ensures CountLevel(r, Warn) == CountLevel(warnings, Warn)
    ensures CountLevel(r, Error) == CountLevel(warnings, Error) + (if delivery.Failure? then 1 else 0)
    ensures delivery.Success? ==> r[|r| - 1] == LogRecord(Info, "Successfully sent Revolt message", map["isReply" := Truthy(opts.replyToId)])
    ensures delivery.Failure? ==> r[|r| - 1] == Record(Error, SendFailedMessage)
  {
    var attempting := LogRecord(Info, "Attempting to send Revolt message",
                                map["hasUsername" := Truthy(opts.username), "isReply" := Truthy(opts.replyToId)]);
    var last := match delivery
      case Success(_) => LogRecord(Info, "Successfully sent Revolt message", map["isReply" := Truthy(opts.replyToId)])
      case Failure(_) => Record(Error, SendFailedMessage);
    WriteOne(Write(WriteOne([], attempting), warnings), last)
  }

  /** The part of `sendMessage` after the channel was found: build the
      message, send it, and log the attempt and how it went. */
  function Submit(content: string, opts: SendOptions, env: SendEnv): (r: SendReport)
    ensures r.submitted.Some? && r.outcome == env.delivery
    ensures r.submitted.value.masquerade == MasqueradeFor(opts)
    ensures Quotes(opts, env) ==>
              r.submitted.value.content == ReplyPreview(env.reply.author, env.reply.content, content) &&
              r.submitted.value.replies == Some([opts.replyToId.value])
    ensures !Quotes(opts, env) ==> r.submitted.value.content == content && r.submitted.value.replies.None?
    ensures CountLevel(r.logs, Warn) == (if Truthy(opts.replyToId) && env.reply.FetchFailed? then 1 else 0)
    ensures CountLevel(r.logs, Error) == (if r.outcome.Failure? then 1 else 0)
    ensures |r.logs| > 0 && (r.logs[|r.logs| - 1].level == Error <==> r.outcome.Failure?)
    ensures r.outcome.Success? ==> r.logs[|r.logs| - 1].flags == map["isReply" := Truthy(opts.replyToId)]
  {
    var withReply := WithReply(MessageData(content, MasqueradeFor(opts), None), content, opts.replyToId, env.reply);
    SendReport(env.delivery, Some(withReply.0), SendLogs(opts, withReply.1, env.delivery))
  }

  // ---------------------------------------------------------------------
  // onMessage
  // ---------------------------------------------------------------------

  /** The author of an inbound Revolt message, as the relay reads it. */
  datatype RevoltAuthor = RevoltAuthor(id: string, username: string, bot: bool, avatarId: Option<string>)

  /** An inbound Revolt message; channel, author, content and reply ids may
      each be undefined. */
  datatype RevoltMessage = RevoltMessage(
    id: string,
    channelId: Option<string>,
    author: Option<RevoltAuthor>,
    content: Option<string>,
    replyIds: Option<seq<string>>)

  /** What a registered callback did: its records, and the error it threw, if any. */
  datatype HandlerRun = HandlerRun(logs: seq<LogRecord>, thrown: Option<string>)

  /** What the inbound filter did with one message: the bridge it ran the
      callback with, its records, and whether it caught an error. */
  datatype Dispatch = Dispatch(bridge: Option<Bridge>, logs: seq<LogRecord>, caught: bool)

  /** `message.author?.bot` */
  predicate FromBot(msg: RevoltMessage) {
    msg.author.Some? && msg.author.value.bot
  }

  /** The bridge-selection test: enabled and bridging this message's channel. */
  predicate Serves(b: Bridge, msg: RevoltMessage) {
    msg.channelId == Some(b.revoltChannelId) && b.enabled
  }

  /** `bridges.find(b => b.revoltChannelId === message.channel?._id && b.enabled)` */
  function BridgeFor(bs: seq<Bridge>, msg: RevoltMessage): (r: Option<Bridge>)
    ensures r.Some? <==> exists i :: 0 <= i < |bs| && Serves(bs[i], msg)
    ensures r.Some? ==> exists i :: 0 <= i < |bs| && bs[i] == r.value && Serves(r.value, msg) &&
                                    forall j :: 0 <= j < i ==> !Serves(bs[j], msg)
  {
    Seqs.Find(bs, (b: Bridge) => Serves(b, msg))
  }

  /** The records of a message that found its bridge: two info records, the
      callback's records, then one error record if the callback threw. */
  function HandledLogs(run: HandlerRun): (r: seq<LogRecord>)
    ensures |r| == 2 + |run.logs| + (if run.thrown.Some? then 1 else 0)
    ensures r[0] == Record(Info, "Received Revolt message")
    ensures r[1] == Record(Info, "Processing Revolt message for bridge")
    ensures r[2..2 + |run.logs|] == run.logs
    ensures run.thrown.Some? ==> r[|r| - 1] == Record(Error, ProcessFailedMessage)
    ensures CountLevel(r, Error) == CountLevel(run.logs, Error) + (if run.thrown.Some? then 1 else 0)
  {
    var head := [Record(Info, "Received Revolt message"), Record(Info, "Processing Revolt message for bridge")];
    var tail := if run.thrown.Some? then [Record(Error, ProcessFailedMessage)] else [];
    CountLevelAppend(head + run.logs, tail, Error);
    CountLevelAppend(head, run.logs, Error);
    head + run.logs + tail
  }

  /** The `message` handler installed by `onMessage(callback)`, given the
      outcome of `storage.getBridges()`. */
  function OnMessage(msg: RevoltMessage, bridges: Result<seq<Bridge>, string>, callback: Bridge -> HandlerRun): (r: Dispatch)
    // bot authors are dropped before anything else
    ensures FromBot(msg) ==> r.bridge.None? && r.logs == [] && !r.caught
    // a bridge is used iff some bridge serves the message
    ensures !FromBot(msg) && bridges.Success? ==>
              (r.bridge.Some? <==> exists i :: 0 <= i < |bridges.value| && Serves(bridges.value[i], msg))
    // and it is the first one in storage order
    ensures r.bridge.Some? ==>
              bridges.Success? &&
              exists i :: 0 <= i < |bridges.value| && bridges.value[i] == r.bridge.value && Serves(r.bridge.value, msg) &&
                          forall j :: 0 <= j < i ==> !Serves(bridges.value[j], msg)
    // the callback's records appear after the two info records
    ensures r.bridge.Some? ==>
              2 + |callback(r.bridge.value).logs| <= |r.logs| &&
              r.logs[2..2 + |callback(r.bridge.value).logs|] == callback(r.bridge.value).logs
    // an error is caught iff storage or the callback failed; it becomes one error record
    ensures r.caught <==> !FromBot(msg) && (bridges.Failure? || (r.bridge.Some? && callback(r.bridge.value).thrown.Some?))
    ensures r.caught ==> |r.logs| > 0 && r.logs[|r.logs| - 1] == Record(Error, ProcessFailedMessage)
    ensures CountLevel(r.logs, Error) ==
              (if r.bridge.Some? then CountLevel(callback(r.bridge.value).logs, Error) else 0) + (if r.caught then 1 else 0)
  {
    if FromBot(msg) then Dispatch(None, [], false)
    else
      var received := Record(Info, "Received Revolt message");
      var failed := Record(Error, ProcessFailedMessage);
      match bridges
      case Failure(_) =>
        CountLevelAppend([received], [failed], Error);
        Dispatch(None, [received] + [failed], true)
      case Success(bs) =>
        match BridgeFor(bs, msg)
        case None => Dispatch(None, [received], false)
        case Some(b) =>
          var run := callback(b);
          Dispatch(Some(b), HandledLogs(run), run.thrown.Some?)
  }
}
