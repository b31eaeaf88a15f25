/** Concrete relays through the Discord-to-Revolt handler. */
module Scenarios {
  import opened Wrappers
  import opened Logs
  import opened Shared
  import RevoltBot
  import opened BridgeRelay

  const Pair := Bridge(1, "a1", "b1", true)
  const Hello := DiscordMessage("d1", "alice-id", "alice", "https://cdn/alice.png", "hello", None)
  const Delivered := RevoltBot.SendEnv(RevoltBot.Sendable, RevoltBot.NotFound, Success("r1"))

  /** No masquerade: one send to the bridged Revolt channel under the
      author's own name, content unchanged, not a reply. */
  lemma PlainRelay()
    ensures var r := DiscordToRevolt(Pair, Some(RevoltBot.State(true)), Hello, Success([]), Delivered);
            r.request == Some(SendRequest("b1", "hello", SendOptions(Some("alice"), Some("https://cdn/alice.png"), None))) &&
            r.logs[|r.logs| - 1] == LogRecord(Info, DiscordRelayed, map["isReply" := false])
  {
  }

  /** A masquerade row for the author renames the post. */
  lemma MasqueradedRelay()
    ensures var ms := [Masquerade(1, "alice-id", Some("Al"), None)];
            var r := DiscordToRevolt(Pair, Some(RevoltBot.State(true)), Hello, Success(ms), Delivered);
            r.request.Some? && r.request.value.options.username == Some("Al") &&
            r.request.value.options.avatarUrl == Some("https://cdn/alice.png")
  {
  }

  /** A reply whose original cannot be fetched is still relayed, unquoted,
      with one warning. */
  lemma ReplyFetchFails()
    ensures var msg := Hello.(referenceId := Some("m42"));
            var env := RevoltBot.SendEnv(RevoltBot.Sendable, RevoltBot.FetchFailed("timeout"), Success("r2"));
            var r := DiscordToRevolt(Pair, Some(RevoltBot.State(true)), msg, Success([]), env);
            var sent := RevoltBot.SendMessage(RevoltBot.State(true), "b1", "hello", r.request.value.options, env);
            r.request.Some? && sent.submitted.Some? && sent.submitted.value.content == "hello" &&
            sent.submitted.value.replies.None? && CountLevel(r.logs, Warn) == 1
  {
    var msg := Hello.(referenceId := Some("m42"));
    var env := RevoltBot.SendEnv(RevoltBot.Sendable, RevoltBot.FetchFailed("timeout"), Success("r2"));
    var r := DiscordToRevolt(Pair, Some(RevoltBot.State(true)), msg, Success([]), env);
    var sent := RevoltBot.SendMessage(RevoltBot.State(true), "b1", "hello", r.request.value.options, env);
    var last := r.logs[|r.logs| - 1];
    assert r.logs == sent.logs + [last];
    CountLevelAppend(sent.logs, [last], Warn);
    Single(last);
  }
}
