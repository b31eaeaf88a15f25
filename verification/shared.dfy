/** Rows the relay reads from storage and the options bag both bots'
    `sendMessage` accept. */
module Shared {
  import opened Wrappers

  /** A pair of channels, one per platform, with an on/off switch. */
  datatype Bridge = Bridge(id: int, discordChannelId: string, revoltChannelId: string, enabled: bool)

  /** A per-bridge identity override for the source-platform user `userId`. */
  datatype Masquerade = Masquerade(bridgeId: int, userId: string, username: Option<string>, avatar: Option<string>)

  /** The settings row: one bot token per platform. */
  datatype Settings = Settings(discordToken: Option<string>, revoltToken: Option<string>)

  /** `{ username?, avatarUrl?, replyToId? }` */
  datatype SendOptions = SendOptions(username: Option<string>, avatarUrl: Option<string>, replyToId: Option<string>)

  /** One call of a destination bot's `sendMessage(channelId, content, options)`. */
  datatype SendRequest = SendRequest(channelId: string, content: string, options: SendOptions)
}
