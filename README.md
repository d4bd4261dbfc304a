# Discord forum client — a verified model

This project models the Discord side of the GitHub-to-Discord bridge: the
client in `apps/go-github-discord-bridge/internal/discord/client.go`. The
client authenticates every request with a bot token and resolves a
repository name to a forum tag. It reuses the tag if it exists and
otherwise appends the tag to the channel's tag catalog. It also creates
forum threads, posts follow-up messages and archives threads.

The model has these modules:

- `Wire` (`wire.dfy`): the JSON shapes: `ForumTag`, `ForumChannelResponse`,
  `CreateThreadRequest`, `ThreadMessage`, `Embed`, `EmbedField`,
  `EmbedFooter`, `CreateThreadResponse`, `ArchiveThreadRequest`, and the
  local `PatchBody` of the tag update.
- `Http` (`http.dfy`): requests (method, URL, header map, optional body)
  and scripted replies. A reply is either a transport failure, or a status
  code with the raw body and its decoded views. It also holds the error
  taxonomy `Transport | Api(status, body) | Parse | TagNotFound`, and
  `Remote`, a class that logs every request it is sent and answers from
  its script. When the script runs out, the remote is unreachable.
- `Tags` (`tags.dfy`): the pure parts of reconciliation. These are the
  first-match scan by exact name and the catalog with one id-less tag
  appended.
- `Discord` (`client.dfy`): the REST endpoint table (method, path, success
  codes, body or not) as a reference, the request builders proved to
  conform to it, and each operation as a pure function from inputs and
  replies to (requests sent, result). It also holds the `Client` class.
  `Client` has immutable `token`, `forumChannelId` and remote. Its methods
  follow the Go code step by step, early returns included. Each method is
  proved to append exactly the requests of the matching pure function to
  the remote's log and to return its result.
- `Properties` (`properties.dfy`): the lemmas about those functions.
- `Scenarios` (`scenarios.dfy`): concrete client runs against scripted
  remotes, verified using only the methods' postconditions.

JSON decoding is abstract. Each scripted reply states what
`json.Unmarshal` of its body gives for each response shape (`None` when
decoding fails). Go's zero values for missing fields carry over as they
are. For example, a created-thread reply without an `id` decodes to the
empty id, and the client returns that.

## Model

| member | source | states |
|---|---|---|
| Http.Remote.Do | apps/go-github-discord-bridge/internal/discord/client.go:96-102 | one round trip: the request is appended to the log and the next scripted reply (or a transport failure) is returned |
| Tags.FirstMatch | apps/go-github-discord-bridge/internal/discord/client.go:113-117 | the scan finds a position exactly when some tag has that exact name; the position holds the name and no earlier tag does |
| Tags.FindTag | apps/go-github-discord-bridge/internal/discord/client.go:154-158 | the id returned belongs to the first tag with that exact name; no id exactly when no tag has the name |
| Tags.WithNewTag | apps/go-github-discord-bridge/internal/discord/client.go:120 | the new catalog keeps every old tag in place and adds exactly one `{id: "", name}` at the end |
| Tags.FirstMatchConcat | apps/go-github-discord-bridge/internal/discord/client.go:113-120 | scanning old tags plus appended tags finds a match in the old tags first, else in the appended part shifted by the old length |
| Tags.NewTagIsFirstMatch | apps/go-github-discord-bridge/internal/discord/client.go:120 | if the name was missing, the appended tag is the first and only match, and its id is empty |
| Tags.WithNewTagKeepsExisting | apps/go-github-discord-bridge/internal/discord/client.go:120 | appending never changes which id is found for a name already present |
| Discord.FetchChannelRequest | apps/go-github-discord-bridge/internal/discord/client.go:88-94 | the tag fetch is a GET of `/channels/{forum}` with only the bot authorization header and no body |
| Discord.UpdateTagsRequest | apps/go-github-discord-bridge/internal/discord/client.go:120-135 | the tag update is a PATCH of `/channels/{forum}` with the JSON headers and the given catalog as `available_tags` |
| Discord.CreateThreadRequestFor | apps/go-github-discord-bridge/internal/discord/client.go:165-184 | thread creation is a POST to `/channels/{forum}/threads`, JSON headers, body `{name: title, message, applied_tags}` |
| Discord.PostMessageRequest | apps/go-github-discord-bridge/internal/discord/client.go:208-221 | a follow-up is a POST to `/channels/{thread}/messages`, JSON headers, body the message |
| Discord.ArchiveThreadRequestFor | apps/go-github-discord-bridge/internal/discord/client.go:244-261 | archiving is a PATCH of `/channels/{thread}`, JSON headers, body `{archived: true}` |
| Discord.AfterPatch | apps/go-github-discord-bridge/internal/discord/client.go:137-160 | a success only after a 200 update whose decoded reply names the tag; "tag created but not found" exactly when a decodable 200 reply lacks the name; any other status is Api(status, raw body) |
| Discord.RepoTagRun | apps/go-github-discord-bridge/internal/discord/client.go:86-161 | reconciliation sends the channel fetch first and at most one more request; it sends the catalog update exactly when the fetch succeeded without the name, and that update carries the fetched catalog plus the new tag; "not found" only after an update |
| Discord.CreateThreadRun | apps/go-github-discord-bridge/internal/discord/client.go:164-204 | one request; success exactly on 201 with a decodable reply, returning that reply's id; any other status is Api(status, raw body) |
| Discord.PostMessageRun | apps/go-github-discord-bridge/internal/discord/client.go:207-235 | one request; success exactly on 200 or 201; a lost connection is Transport and any other status is Api(status, raw body) |
| Discord.ArchiveThreadRun | apps/go-github-discord-bridge/internal/discord/client.go:243-275 | one request; success exactly on 200; a lost connection is Transport and any other status is Api(status, raw body) |
| Discord.Client.NewClient | apps/go-github-discord-bridge/internal/discord/client.go:23-31 | the client keeps the token and forum channel it was given, with its transport |
| Discord.Client.GetOrCreateRepoTag | apps/go-github-discord-bridge/internal/discord/client.go:86-161 | the method sends exactly the requests of `RepoTagRun` for the next two scripted replies, consumes one reply per request, and returns `RepoTagRun`'s result |
| Discord.Client.CreateThread | apps/go-github-discord-bridge/internal/discord/client.go:164-204 | the method sends exactly the request of `CreateThreadRun`, consumes one reply, and returns its result |
| Discord.Client.PostMessage | apps/go-github-discord-bridge/internal/discord/client.go:207-235 | the method sends exactly the request of `PostMessageRun`, consumes one reply, and returns its result |
| Discord.Client.ArchiveThread | apps/go-github-discord-bridge/internal/discord/client.go:243-275 | the method sends exactly the request of `ArchiveThreadRun`, consumes one reply, and returns its result |
| Properties.RepoTagRequests | apps/go-github-discord-bridge/internal/discord/client.go:86-161 | every reconciliation sends one conforming GET first, and at most one conforming PATCH of the same channel after it; the PATCH is sent exactly when the fetch succeeded and lacked the name |
| Properties.RepoTagFastPath | apps/go-github-discord-bridge/internal/discord/client.go:113-117 | when the fetched catalog contains the name: one GET, no PATCH, and the result is the id of the first tag with that name, whatever the remote would answer next |
| Properties.RepoTagSlowPathBody | apps/go-github-discord-bridge/internal/discord/client.go:120-135 | when the name is missing: exactly one GET and one PATCH, to the same URL, whose `available_tags` is the fetched list unchanged followed by `{id: "", name: repoName}` |
| Properties.RepoTagFetchFailure | apps/go-github-discord-bridge/internal/discord/client.go:96-110 | a lost, non-200 or undecodable fetch gives Transport, Api(status, raw body) or Parse respectively, and no PATCH is sent |
| Properties.RepoTagPatchAccepted | apps/go-github-discord-bridge/internal/discord/client.go:148-160 | after a 200 update with a decodable reply, the result is the id of the first tag in the reply with that name; "tag created but not found" exactly when the reply has no such tag, and success exactly when it has one |
| Properties.RepoTagPatchFailure | apps/go-github-discord-bridge/internal/discord/client.go:137-152 | a lost, non-200 or undecodable update reply gives Transport, Api(status, raw body) or Parse, with no re-scan |
| Properties.RepoTagResultSound | apps/go-github-discord-bridge/internal/discord/client.go:86-161 | every id returned is the id of a tag with that exact name in the last catalog the remote reported (the fetch on the fast path, the update reply on the slow path) |
| Properties.RepoTagRepeatReuses | apps/go-github-discord-bridge/internal/discord/client.go:112-117 | once an id was returned, a later run whose fetch sees the last reported catalog takes the fast path to the same id, with a single GET |
| Properties.RepoTagEchoedPatchGivesEmptyId | apps/go-github-discord-bridge/internal/discord/client.go:154-158 | if the remote echoed the update without assigning an id, the re-scan would return the empty id as a success: the not-found check guards only a missing name |
| Properties.CreateThreadContract | apps/go-github-discord-bridge/internal/discord/client.go:164-204 | one conforming POST with body `{title, message, tagIds}`; success exactly on 201 with a decodable reply, returning its id; otherwise Transport, Api(status, raw body) for any other status, or Parse |
| Properties.PostMessageContract | apps/go-github-discord-bridge/internal/discord/client.go:207-235 | one conforming POST carrying the message; success exactly when the status is 200 or 201; any other status is Api(status, raw body) |
| Properties.ArchiveThreadContract | apps/go-github-discord-bridge/internal/discord/client.go:243-275 | one conforming PATCH with `{archived: true}`; success exactly on 200; any other status is Api(status, raw body) |
| Properties.EveryRequestAuthenticated | apps/go-github-discord-bridge/internal/discord/client.go:94-261 | every request of every operation carries `Authorization: Bot <token>`, and carries `Content-Type: application/json` exactly when it has a body; in reconciliation only the PATCH has one |

## Left out

- The `net/http` transport, the 10-second timeout, `io.ReadAll` and closing of bodies. Each round trip is a scripted reply, and `NewClient` takes the transport as a parameter instead of building one.
- JSON encoding and decoding, including `omitempty`. Bodies are sent as datatypes. The decode result of each reply is part of the script, because `encoding/json` is library code.
- Failures of `http.NewRequest`. The model assumes channel and thread ids that form a valid URL path, as Discord's decimal snowflake ids do. For any other id (a malformed percent-escape such as `%zz`, or a control character) the source fails with "failed to create request" before sending anything, while the model still logs a request and classifies a reply. The model does not capture that case.
- Failures of `json.Marshal`. The bodies hold only strings, integers, booleans and nested records of these, which always marshal, so those error returns cannot happen and are not modelled.
- The wording of error messages. The Go errors are formatted strings, and the model keeps only their kind plus, for API errors, the status and raw body. The GET and PATCH steps of reconciliation give the same kinds, which differ only in wording in the source.
- `Embed.color` is a Go `int` (64-bit). The model uses an unbounded integer because the client never does arithmetic on it.
- The lost-update race between concurrent reconciliations. Each run is modelled as one sequence of two round trips, and the client does nothing to serialise callers.
- Remote-side rules, such as title length or posting to archived threads. The client does not encode them.
- The thread lifecycle (open, then archived). The caller owns this state and the client does not track it.
- `pkg/applogger/applogger.go`. It only picks a logging backend from an external library.
