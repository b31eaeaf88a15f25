/** The relay wiring (server/bot/bridge.ts): the token guard of
    `initializeBridge`, the Discord-to-Revolt and Revolt-to-Discord handlers
    it registers, and the record each relay attempt leaves behind.

    The Discord bot is seen only through its presence and the report of its
    `sendMessage`; the Revolt bot is the model in module RevoltBot. */
module BridgeRelay {
  import opened Wrappers
  import opened Js
  import opened Logs
  import opened Shared
  import Seqs
  import RevoltBot

  /** Public base path of Revolt's avatar assets. */
  const AvatarBase := "https://autumn.revolt.chat/avatars/"

  const DiscordRelayed := "Successfully relayed Discord message to Revolt"
  const DiscordRelayFailed := "Failed to relay Discord message to Revolt"
  const RevoltRelayed := "Successfully relayed Revolt message to Discord"
  const RevoltRelayFailed := "Failed to relay Revolt message to Discord"

  // ---------------------------------------------------------------------
  // Identity
  // ---------------------------------------------------------------------

  /** Display name and avatar a relayed post is made under. */
  datatype Identity = Identity(name: Option<string>, avatar: Option<string>)

  /** Row `i` is the author's first masquerade row. */
  predicate FirstRowFor(ms: seq<Masquerade>, authorId: string, i: int) {
    0 <= i < |ms| && ms[i].userId == authorId && forall j :: 0 <= j < i ==> ms[j].userId != authorId
  }

  /** Reference rule shared by both directions: the first masquerade row for
      the author wins, and each of its fields falls back to the native value
      when it is empty or missing. */
  function ResolveIdentity(ms: seq<Masquerade>, authorId: string, nativeName: Option<string>, nativeAvatar: Option<string>): (r: Identity)
    ensures (forall i :: 0 <= i < |ms| ==> ms[i].userId != authorId) ==> r == Identity(nativeName, nativeAvatar)
    ensures forall i :: FirstRowFor(ms, authorId, i) ==>
              r == Identity(Or(ms[i].username, nativeName), Or(ms[i].avatar, nativeAvatar))
    decreases |ms|
  {
    if |ms| == 0 then Identity(nativeName, nativeAvatar)
    else if ms[0].userId == authorId then
      assert forall i :: FirstRowFor(ms, authorId, i) ==> i == 0;
      Identity(Or(ms[0].username, nativeName), Or(ms[0].avatar, nativeAvatar))
    else
      var rest := ms[1..];
      var r := ResolveIdentity(rest, authorId, nativeName, nativeAvatar);
      assert (forall i :: 0 <= i < |ms| ==> ms[i].userId != authorId) ==> forall k :: 0 <= k < |rest| ==> rest[k].userId != authorId by {
        forall k | 0 <= k < |rest| ensures rest[k] == ms[k + 1] { }
      }
      forall i | FirstRowFor(ms, authorId, i)
        ensures r == Identity(Or(ms[i].username, nativeName), Or(ms[i].avatar, nativeAvatar))
      {
        assert rest[i - 1] == ms[i];
        forall k | 0 <= k < i - 1 ensures rest[k].userId != authorId {
          assert rest[k] == ms[k + 1];
        }
        assert FirstRowFor(rest, authorId, i - 1);
      }
      r
  }

  /** A masquerade whose username and avatar are both set overrides the
      author's own, whatever those are. */
  lemma MasqueradePrecedence(ms: seq<Masquerade>, i: nat, authorId: string, nativeName: Option<string>, nativeAvatar: Option<string>)
    requires i < |ms| && ms[i].userId == authorId
    requires forall j :: 0 <= j < i ==> ms[j].userId != authorId
    requires Truthy(ms[i].username) && Truthy(ms[i].avatar)
    ensures ResolveIdentity(ms, authorId, nativeName, nativeAvatar) == Identity(ms[i].username, ms[i].avatar)
  {
  }

  /** `masquerades.find(m => m.userId === userId)` */
  function MasqueradeOf(ms: seq<Masquerade>, userId: string): (r: Option<Masquerade>)
    ensures r.Some? <==> exists i :: 0 <= i < |ms| && ms[i].userId == userId
    ensures r.Some? ==> exists i :: 0 <= i < |ms| && ms[i] == r.value && r.value.userId == userId &&
                                    forall j :: 0 <= j < i ==> ms[j].userId != userId
  {
    Seqs.Find(ms, (m: Masquerade) => m.userId == userId)
  }

  /** `masquerade?.username` */
  function NameOf(m: Option<Masquerade>): Option<string> {
    if m.Some? then m.value.username else None
  }

  /** `masquerade?.avatar` */
  function AvatarOf(m: Option<Masquerade>): Option<string> {
    if m.Some? then m.value.avatar else None
  }

  /** The lookup-then-`||` code both handlers inline agrees with the shared rule. */
  lemma InlineIdentityAgrees(ms: seq<Masquerade>, authorId: string, nativeName: Option<string>, nativeAvatar: Option<string>)
    ensures var m := MasqueradeOf(ms, authorId);
            Identity(Or(NameOf(m), nativeName), Or(AvatarOf(m), nativeAvatar)) == ResolveIdentity(ms, authorId, nativeName, nativeAvatar)
  {
  }

  // ---------------------------------------------------------------------
  // Per-direction request construction
  // ---------------------------------------------------------------------

  /** An inbound Discord message, as the relay reads it. */
  datatype DiscordMessage = DiscordMessage(
    id: string,
    authorId: string,
    authorUsername: string,
    authorAvatarUrl: string,
    content: string,
    referenceId: Option<string>)

  /** Revolt author avatar URL, or null when there is no asset id. */
  function RevoltAvatarUrl(author: RevoltBot.RevoltAuthor): (r: Option<string>)
    ensures r.Some? <==> Truthy(author.avatarId)
    ensures r.Some? ==> r.value == AvatarBase + author.avatarId.value && r.value[|AvatarBase|..] == author.avatarId.value
  {
    if Truthy(author.avatarId) then Some(AvatarBase + author.avatarId.value) else None
  }

  /** `message.reply_ids?.[0]` */
  function FirstReplyId(ids: Option<seq<string>>): (r: Option<string>)
    ensures r.Some? <==> ids.Some? && |ids.value| > 0
    ensures r.Some? ==> r.value == ids.value[0]
  {
    if ids.Some? && |ids.value| > 0 then Some(ids.value[0]) else None
  }

  /** `message.content || ""` */
  function ContentOrEmpty(c: Option<string>): (r: string)
    ensures c.Some? ==> r == c.value
    ensures c.None? ==> r == ""
  {
    if Truthy(c) then c.value else ""
  }

  /** The `sendMessage` call the Discord handler makes to the Revolt bot. */
  function DiscordRequest(bridge: Bridge, msg: DiscordMessage, ms: seq<Masquerade>): (r: SendRequest)
    ensures r.channelId == bridge.revoltChannelId
    ensures r.content == msg.content
    ensures r.options.replyToId == msg.referenceId
    ensures IdentityOf(r) == ResolveIdentity(ms, msg.authorId, Some(msg.authorUsername), Some(msg.authorAvatarUrl))
  {
    var m := MasqueradeOf(ms, msg.authorId);
    InlineIdentityAgrees(ms, msg.authorId, Some(msg.authorUsername), Some(msg.authorAvatarUrl));
    SendRequest(bridge.revoltChannelId, msg.content,
                SendOptions(Or(NameOf(m), Some(msg.authorUsername)),
                            Or(AvatarOf(m), Some(msg.authorAvatarUrl)),
                            msg.referenceId))
  }

  /** The `sendMessage` call the Revolt handler makes to the Discord bot. */
  function RevoltRequest(bridge: Bridge, author: RevoltBot.RevoltAuthor, msg: RevoltBot.RevoltMessage, ms: seq<Masquerade>): (r: SendRequest)
    ensures r.channelId == bridge.discordChannelId
    ensures r.content == ContentOrEmpty(msg.content)
    ensures r.options.replyToId == FirstReplyId(msg.replyIds)
    ensures IdentityOf(r) == ResolveIdentity(ms, author.id, Some(author.username), RevoltAvatarUrl(author))
  {
    var avatarUrl := RevoltAvatarUrl(author);
    var m := MasqueradeOf(ms, author.id);
    InlineIdentityAgrees(ms, author.id, Some(author.username), avatarUrl);
    SendRequest(bridge.discordChannelId, ContentOrEmpty(msg.content),
                SendOptions(Or(NameOf(m), Some(author.username)),
                            Or(AvatarOf(m), avatarUrl),
                            FirstReplyId(msg.replyIds)))
  }

  /** The identity a request posts under. */
  function IdentityOf(req: SendRequest): Identity {
    Identity(req.options.username, req.options.avatarUrl)
  }

  /** Platform-neutral view of an inbound message. */
  datatype Inbound = Inbound(authorId: string, name: string, avatar: Option<string>, content: string, replyToId: Option<string>)

  function DiscordView(msg: DiscordMessage): Inbound {
    Inbound(msg.authorId, msg.authorUsername, Some(msg.authorAvatarUrl), msg.content, msg.referenceId)
  }

  function RevoltView(author: RevoltBot.RevoltAuthor, msg: RevoltBot.RevoltMessage): Inbound {
    Inbound(author.id, author.username, RevoltAvatarUrl(author), ContentOrEmpty(msg.content), FirstReplyId(msg.replyIds))
  }

  /** Both handlers resolve identity with the one shared rule, pass the reply
      id through verbatim, and target the bridge's other channel; so two
      messages with the same neutral view produce the same options. */
  lemma DirectionParity(bridge: Bridge, dm: DiscordMessage, author: RevoltBot.RevoltAuthor, rm: RevoltBot.RevoltMessage, ms: seq<Masquerade>)
    ensures var v := DiscordView(dm);
            var req := DiscordRequest(bridge, dm, ms);
            IdentityOf(req) == ResolveIdentity(ms, v.authorId, Some(v.name), v.avatar) &&
            req == SendRequest(bridge.revoltChannelId, v.content, req.options) && req.options.replyToId == v.replyToId
    ensures var v := RevoltView(author, rm);
            var req := RevoltRequest(bridge, author, rm, ms);
            IdentityOf(req) == ResolveIdentity(ms, v.authorId, Some(v.name), v.avatar) &&
            req == SendRequest(bridge.discordChannelId, v.content, req.options) && req.options.replyToId == v.replyToId
    ensures DiscordView(dm) == RevoltView(author, rm) ==>
              DiscordRequest(bridge, dm, ms).options == RevoltRequest(bridge, author, rm, ms).options &&
              DiscordRequest(bridge, dm, ms).content == RevoltRequest(bridge, author, rm, ms).content
  {
  }

  // ---------------------------------------------------------------------
  // Handlers
  // ---------------------------------------------------------------------

  /** What one handler invocation did: the send request it issued, every
      record appended (the destination bot's and its own), and the error it
      let escape, if any. */
  datatype Relay = Relay(request: Option<SendRequest>, logs: seq<LogRecord>, thrown: Option<string>)

  /** What the Discord bot's `sendMessage` did: its outcome and its records. */
  datatype DiscordSend = DiscordSend(outcome: Result<string, string>, logs: seq<LogRecord>)

  /** The handler's own closing record. */
  function Concluding(outcome: Result<string, string>, relayed: string, failed: string, replyToId: Option<string>): (r: LogRecord)
    ensures r.level == Info <==> outcome.Success?
    ensures r.level == Error <==> outcome.Failure?
    ensures outcome.Success? ==> r.message == relayed && r.flags == map["isReply" := Truthy(replyToId)]
    ensures outcome.Failure? ==> r.message == failed && r.flags == map[]
  {
    match outcome
    case Success(_) => LogRecord(Info, relayed, map["isReply" := Truthy(replyToId)])
    case Failure(_) => Record(Error, failed)
  }

  /** The handler registered on the Discord bot, given the bridge the Discord
      bot selected, the Revolt bot (if constructed), the outcome of
      `getMasquerades`, and what the Revolt client reports during the send. */
  function DiscordToRevolt(bridge: Bridge, revolt: Option<RevoltBot.State>, msg: DiscordMessage,
                           masquerades: Result<seq<Masquerade>, string>, env: RevoltBot.SendEnv): (r: Relay)
    ensures r.thrown.None?
    ensures !bridge.enabled || revolt.None? ==> r.request.None? && r.logs == []
    ensures bridge.enabled && revolt.Some? && masquerades.Failure? ==>
              r.request.None? && r.logs == [Record(Error, DiscordRelayFailed)]
    ensures r.request.Some? ==>
              masquerades.Success? && revolt.Some? && r.request.value == DiscordRequest(bridge, msg, masquerades.value)
    // the Revolt bot's records, then exactly one of the handler's own
    ensures r.request.Some? ==>
              var sent := RevoltBot.SendMessage(revolt.value, bridge.revoltChannelId, msg.content, r.request.value.options, env);
              |r.logs| == |sent.logs| + 1 && r.logs[..|sent.logs|] == sent.logs &&
              (r.logs[|r.logs| - 1].level == Info <==> sent.outcome.Success?) &&
              (sent.outcome.Success? ==> r.logs[|r.logs| - 1] == LogRecord(Info, DiscordRelayed, map["isReply" := Truthy(msg.referenceId)])) &&
              (sent.outcome.Failure? ==> r.logs[|r.logs| - 1] == Record(Error, DiscordRelayFailed))
    ensures bridge.enabled && revolt.Some? && masquerades.Success? ==> r.request.Some?
  {
    if !bridge.enabled || revolt.None? then Relay(None, [], None)
    else
      match masquerades
      case Failure(_) => Relay(None, [Record(Error, DiscordRelayFailed)], None)
      case Success(ms) =>
        var req := DiscordRequest(bridge, msg, ms);
        var sent := RevoltBot.SendMessage(revolt.value, req.channelId, req.content, req.options, env);
        Relay(Some(req), sent.logs + [Concluding(sent.outcome, DiscordRelayed, DiscordRelayFailed, req.options.replyToId)], None)
  }

  /** A failed send through the Revolt bot leaves exactly two error records,
      the bot's own and the handler's; a successful one leaves none. */
  lemma FailedSendTwoErrors(bridge: Bridge, revolt: RevoltBot.State, msg: DiscordMessage, ms: seq<Masquerade>, env: RevoltBot.SendEnv)
    requires bridge.enabled
    ensures var r := DiscordToRevolt(bridge, Some(revolt), msg, Success(ms), env);
            var sent := RevoltBot.SendMessage(revolt, bridge.revoltChannelId, msg.content, r.request.value.options, env);
            CountLevel(r.logs, Error) == (if sent.outcome.Failure? then 2 else 0)
  {
    var r := DiscordToRevolt(bridge, Some(revolt), msg, Success(ms), env);
    var sent := RevoltBot.SendMessage(revolt, bridge.revoltChannelId, msg.content, r.request.value.options, env);
    var last := r.logs[|r.logs| - 1];
    assert r.logs == sent.logs + [last];
    CountLevelAppend(sent.logs, [last], Error);
    Single(last);
  }

  /** The handler registered on the Revolt bot, given the bridge the Revolt
      bot selected, whether the Discord bot exists, the outcome of
      `getMasquerades`, and the report of the Discord bot's send. */
  function RevoltToDiscord(bridge: Bridge, discordPresent: bool, msg: RevoltBot.RevoltMessage,
                           masquerades: Result<seq<Masquerade>, string>, send: DiscordSend): (r: Relay)
    ensures r.thrown.None?
    ensures !bridge.enabled || !discordPresent || msg.author.None? ==> r.request.None? && r.logs == []
    ensures bridge.enabled && discordPresent && msg.author.Some? && masquerades.Failure? ==>
              r.request.None? && r.logs == [Record(Error, RevoltRelayFailed)]
    ensures r.request.Some? ==>
              masquerades.Success? && msg.author.Some? &&
              r.request.value == RevoltRequest(bridge, msg.author.value, msg, masquerades.value)
    // the Discord bot's records, then exactly one of the handler's own
    ensures r.request.Some? ==>
              |r.logs| == |send.logs| + 1 && r.logs[..|send.logs|] == send.logs &&
              (r.logs[|r.logs| - 1].level == Info <==> send.outcome.Success?) &&
              (send.outcome.Success? ==> r.logs[|r.logs| - 1] == LogRecord(Info, RevoltRelayed, map["isReply" := Truthy(FirstReplyId(msg.replyIds))])) &&
              (send.outcome.Failure? ==> r.logs[|r.logs| - 1] == Record(Error, RevoltRelayFailed))
    ensures bridge.enabled && discordPresent && msg.author.Some? && masquerades.Success? ==> r.request.Some?
  {
    if !bridge.enabled || !discordPresent || msg.author.None? then Relay(None, [], None)
    else
      match masquerades
      case Failure(_) => Relay(None, [Record(Error, RevoltRelayFailed)], None)
      case Success(ms) =>
        var author := msg.author.value;
        var req := RevoltRequest(bridge, author, msg, ms);
        Relay(Some(req), send.logs + [Concluding(send.outcome, RevoltRelayed, RevoltRelayFailed, req.options.replyToId)], None)
  }

  /** A relay run seen as a callback run of the Revolt bot's inbound filter. */
  function AsRun(r: Relay): RevoltBot.HandlerRun {
    RevoltBot.HandlerRun(r.logs, r.thrown)
  }

  /** One inbound Revolt message taken end to end: the bot's filter and
      bridge lookup, then the Revolt-to-Discord handler. */
  function RevoltInbound(msg: RevoltBot.RevoltMessage, bridges: Result<seq<Bridge>, string>, discordPresent: bool,
                         masqueradesOf: int -> Result<seq<Masquerade>, string>, send: DiscordSend): (r: RevoltBot.Dispatch)
    // the handler never throws, so only a failed bridge read is caught
    ensures r.caught <==> !RevoltBot.FromBot(msg) && bridges.Failure?
    // a bridge is selected iff the message is not from a bot and some bridge serves its channel
    ensures r.bridge.Some? <==>
              !RevoltBot.FromBot(msg) && bridges.Success? && exists i :: 0 <= i < |bridges.value| && RevoltBot.Serves(bridges.value[i], msg)
    ensures r.bridge.Some? ==>
              CountLevel(r.logs, Error) == CountLevel(RevoltToDiscord(r.bridge.value, discordPresent, msg, masqueradesOf(r.bridge.value.id), send).logs, Error)
  {
    var handler := (b: Bridge) => AsRun(RevoltToDiscord(b, discordPresent, msg, masqueradesOf(b.id), send));
    var d := RevoltBot.OnMessage(msg, bridges, handler);
    assert d.bridge.Some? ==> handler(d.bridge.value).thrown.None? by {
      if d.bridge.Some? {
        var b := d.bridge.value;
        assert handler(b) == AsRun(RevoltToDiscord(b, discordPresent, msg, masqueradesOf(b.id), send));
      }
    }
    d
  }

  /** No self-loop: a message from a bot is never relayed and leaves no record. */
  lemma NoSelfLoop(msg: RevoltBot.RevoltMessage, bridges: Result<seq<Bridge>, string>, discordPresent: bool,
                   masqueradesOf: int -> Result<seq<Masquerade>, string>, send: DiscordSend)
    requires RevoltBot.FromBot(msg)
    ensures RevoltInbound(msg, bridges, discordPresent, masqueradesOf, send).bridge.None?
    ensures RevoltInbound(msg, bridges, discordPresent, masqueradesOf, send).logs == []
  {
  }

  /** Failure containment: the relay handler never throws, so once the
      bridges are read the filter never has anything to catch, and a failed
      Discord send costs exactly one error record beyond the Discord bot's own. */
  lemma RelayFailureContained(msg: RevoltBot.RevoltMessage, bridges: Result<seq<Bridge>, string>, discordPresent: bool,
                              masqueradesOf: int -> Result<seq<Masquerade>, string>, send: DiscordSend)
    requires bridges.Success?
    ensures !RevoltInbound(msg, bridges, discordPresent, masqueradesOf, send).caught
    ensures var d := RevoltInbound(msg, bridges, discordPresent, masqueradesOf, send);
            d.bridge.Some? && discordPresent && msg.author.Some? && masqueradesOf(d.bridge.value.id).Success? && send.outcome.Failure? ==>
              CountLevel(d.logs, Error) == CountLevel(send.logs, Error) + 1
  {
    var d := RevoltInbound(msg, bridges, discordPresent, masqueradesOf, send);
    if d.bridge.Some? {
      var r := RevoltToDiscord(d.bridge.value, discordPresent, msg, masqueradesOf(d.bridge.value.id), send);
      if r.request.Some? {
        assert r.logs == send.logs + [r.logs[|r.logs| - 1]];
        CountLevelAppend(send.logs, [r.logs[|r.logs| - 1]], Error);
      }
    }
  }

  // ---------------------------------------------------------------------
  // Initialization
  // ---------------------------------------------------------------------

  /** The bots `initializeBridge` constructs: both or none. The Discord bot
      carries no modelled state. */
  datatype Bots = Bots(revolt: RevoltBot.State)

  /** Result of `initializeBridge`: the log store afterwards, the bots, and
      whether the handlers were registered and the error records cleared. */
  datatype Init = Init(store: seq<LogRecord>, bots: Option<Bots>, handlersRegistered: bool, errorsCleared: bool)

  /** Both tokens are set and non-empty. */
  predicate TokensPresent(s: Settings) {
    Truthy(s.discordToken) && Truthy(s.revoltToken)
  }

  const InitFailed := "Failed to initialize bridge"
  const InitDone := "Bridge initialized successfully"

  /** The first record of every run that read the settings. */
  function AttemptRecord(s: Settings): LogRecord {
    LogRecord(Info, "Attempting to initialize bridge with settings",
              map["discordTokenPresent" := Truthy(s.discordToken), "revoltTokenPresent" := Truthy(s.revoltToken)])
  }

  /** The record written when a token is missing. */
  function MissingTokensRecord(s: Settings): LogRecord {
    LogRecord(Error, "Bot tokens not configured",
              map["discordTokenSet" := Truthy(s.discordToken), "revoltTokenSet" := Truthy(s.revoltToken)])
  }

  /** The records a run with both tokens writes before clearing: the
      attempt record, then the Revolt bot constructor's records. */
  function StartupRecords(s: Settings): seq<LogRecord> {
    [AttemptRecord(s)] + RevoltBot.Create().logs
  }

  /** The tail of `initializeBridge`, once both handlers are registered:
      clear the error records and write the success record; a rejected
      clearing is caught by the outer handler as one error record instead. */
  function Conclude(store: seq<LogRecord>, clearing: Result<(), string>): (r: seq<LogRecord>)
    ensures clearing.Success? ==>
              CountLevel(r, Error) == 0 &&
              CountLevel(r, Info) == CountLevel(store, Info) + 1 &&
              r[|r| - 1] == Record(Info, InitDone) &&
              forall x: LogRecord :: multiset(r)[x] ==
                (if x.level == Error then 0 else multiset(store)[x]) + (if x == Record(Info, InitDone) then 1 else 0)
    ensures clearing.Failure? ==> OneMoreError(store, r) && |r| == |store| + 1
  {
    match clearing
    case Failure(_) => WriteOne(store, Record(Error, InitFailed))
    case Success(_) => WriteOne(ClearErrors(store), Record(Info, InitDone))
  }

  /** Clearing a store made of `store` and then error-free `added` records,
      then writing `done`, keeps exactly the non-error part of `store`, all
      of `added`, and `done`. */
  lemma ClearedAfterCleanRecords(store: seq<LogRecord>, added: seq<LogRecord>, started: seq<LogRecord>,
                                 done: LogRecord, r: seq<LogRecord>)
    requires multiset(started) == multiset(store) + multiset(added)
    requires forall i :: 0 <= i < |added| ==> added[i].level != Error
    requires forall x: LogRecord :: multiset(r)[x] ==
               (if x.level == Error then 0 else multiset(started)[x]) + (if x == done then 1 else 0)
    ensures forall x: LogRecord :: multiset(r)[x] ==
              (if x.level == Error then 0 else multiset(store)[x]) + multiset(added + [done])[x]
  {
    assert multiset(added + [done]) == multiset(added) + multiset{done};
    forall x: LogRecord
      ensures multiset(r)[x] == (if x.level == Error then 0 else multiset(store)[x]) + multiset(added + [done])[x]
    {
      if x.level == Error {
        assert x !in added;
      }
    }
  }

  /** A successful clearing after startup keeps every earlier non-error
      record, every startup record and the success record, and nothing else. */
  lemma StartupSurvivesClearing(store: seq<LogRecord>, s: Settings, clearing: Result<(), string>)
    requires clearing.Success?
    ensures var r := Conclude(Write(WriteOne(store, AttemptRecord(s)), RevoltBot.Create().logs), clearing);
            forall x: LogRecord :: multiset(r)[x] ==
              (if x.level == Error then 0 else multiset(store)[x]) +
              multiset(StartupRecords(s) + [Record(Info, InitDone)])[x]
  {
    var startup := StartupRecords(s);
    var started := Write(WriteOne(store, AttemptRecord(s)), RevoltBot.Create().logs);
    assert multiset(started) == multiset(store) + multiset(startup);
    assert forall i :: 0 <= i < |startup| ==> startup[i].level != Error;
    ClearedAfterCleanRecords(store, startup, started, Record(Info, InitDone), Conclude(started, clearing));
  }

  /** `initializeBridge(storage)` given the log store before it runs and the
      outcomes of `getSettings` and `clearErrorLogs`. */
  function InitializeBridge(store: seq<LogRecord>, settings: Result<Settings, string>, clearing: Result<(), string>): (r: Init)
    // the bots constructed by this call: both iff both tokens are set, never just one
    ensures r.bots.Some? <==> settings.Success? && TokensPresent(settings.value)
    ensures r.handlersRegistered <==> r.bots.Some?
    ensures r.bots.Some? ==> !r.bots.value.revolt.ready
    // error records are cleared only after both handlers are registered
    ensures r.errorsCleared <==> r.handlersRegistered && clearing.Success?
    // on success no error record is left and four info records are added
    ensures r.errorsCleared ==>
              CountLevel(r.store, Error) == 0 &&
              CountLevel(r.store, Info) == CountLevel(store, Info) + 4 &&
              r.store[|r.store| - 1] == Record(Info, InitDone)
    // otherwise earlier records stay and exactly one error record is added, last
    ensures !r.errorsCleared ==> OneMoreError(store, r.store)
  {
    match settings
    case Failure(_) =>
      Init(WriteOne(store, Record(Error, InitFailed)), None, false, false)
    case Success(s) =>
      var attempted := WriteOne(store, AttemptRecord(s));
      if !TokensPresent(s) then
        Init(WriteOne(attempted, MissingTokensRecord(s)), None, false, false)
      else
        var created := RevoltBot.Create();
        var started := Write(attempted, created.logs);
        Init(Conclude(started, clearing), Some(Bots(created.state)), true, clearing.Success?)
  }

  /** A successful initialization keeps every earlier non-error record with
      its multiplicity, adds exactly the startup records and the success
      record, and nothing else. */
  lemma InitializeKeepsRecords(store: seq<LogRecord>, s: Settings, clearing: Result<(), string>)
    requires TokensPresent(s) && clearing.Success?
    ensures forall x: LogRecord :: multiset(InitializeBridge(store, Success(s), clearing).store)[x] ==
              (if x.level == Error then 0 else multiset(store)[x]) +
              multiset(StartupRecords(s) + [Record(Info, InitDone)])[x]
  {
    StartupSurvivesClearing(store, s, clearing);
  }
}
