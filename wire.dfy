/**
 * The JSON wire shapes exchanged with the Discord REST API
 * (internal/discord/client.go). Field names follow the JSON keys; the
 * encoding itself (including `omitempty`) is not modelled, so every field
 * holds the Go value that would be marshalled.
 */
module Wire {
  import opened Wrappers

  /** One entry of a forum channel's tag catalog. A tag being created has no id yet (""). */
  datatype ForumTag = ForumTag(id: string, name: string)

  /** The part of a channel resource that the client reads: its tag catalog, in order. */
  datatype ForumChannelResponse = ForumChannelResponse(availableTags: seq<ForumTag>)

  datatype EmbedField = EmbedField(name: string, value: string, inline: bool)

  datatype EmbedFooter = EmbedFooter(text: string, iconUrl: string)

  /** A rich embed; `footer` is a Go pointer, hence optional. */
  datatype Embed = Embed(
    title: string,
    description: string,
    url: string,
    color: int,
    fields: seq<EmbedField>,
    timestamp: string,
    footer: Option<EmbedFooter>)

  datatype ThreadMessage = ThreadMessage(content: string, embeds: seq<Embed>)

  datatype CreateThreadRequest = CreateThreadRequest(name: string, message: ThreadMessage, appliedTags: seq<string>)

  datatype CreateThreadResponse = CreateThreadResponse(id: string, name: string)

  datatype ArchiveThreadRequest = ArchiveThreadRequest(archived: bool)

  /** The body of the tag-catalog update; it fully replaces the channel's catalog. */
  datatype PatchBody = PatchBody(availableTags: seq<ForumTag>)

  /** Every JSON body the client sends. */
  datatype Payload =
    | TagCatalog(patch: PatchBody)
    | NewThread(thread: CreateThreadRequest)
    | Message(message: ThreadMessage)
    | ArchiveFlag(archive: ArchiveThreadRequest)
}
