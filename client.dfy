/**
 * The Discord forum client (internal/discord/client.go): request
 * construction, tag get-or-create reconciliation, and the thread
 * operations. Each operation is given twice: as a pure function of its
 * inputs and the replies it will receive (what it sends and what it
 * returns), and as a method of the client that talks to a Remote and is
 * proved to behave as that function says.
 */
module Discord {
  import opened Wrappers
  import opened Wire
  import opened Http
  import Tags

  const ApiBase: string := "https://discord.com/api/v10"

  // ---------------------------------------------------------------------
  // The Discord REST endpoints the client calls: method, path, success
  // codes, and whether a body is sent. The request builders below are
  // proved to conform to this table.
  // ---------------------------------------------------------------------

  datatype Endpoint =
    | FetchChannel       // read the forum channel's tag catalog
    | UpdateChannelTags  // replace the forum channel's tag catalog
    | StartThread        // create a thread in the forum channel
    | SendToThread       // post a message to a thread
    | CloseThread        // archive a thread

  function RouteVerb(e: Endpoint): Method {
    match e
    case FetchChannel => GET
    case UpdateChannelTags => PATCH
    case StartThread => POST
    case SendToThread => POST
    case CloseThread => PATCH
  }

  /** The path below the API base; `id` is the forum channel for the first three, the thread for the others. */
  function RoutePath(e: Endpoint, id: string): string {
    match e
    case FetchChannel => "/channels/" + id
    case UpdateChannelTags => "/channels/" + id
    case StartThread => "/channels/" + id + "/threads"
    case SendToThread => "/channels/" + id + "/messages"
    case CloseThread => "/channels/" + id
  }

  function SuccessCodes(e: Endpoint): set<int> {
    match e
    case FetchChannel => {200}
    case UpdateChannelTags => {200}
    case StartThread => {201}
    case SendToThread => {200, 201}
    case CloseThread => {200}
  }

  predicate HasBody(e: Endpoint) {
    !e.FetchChannel?
  }

  /** `req` is a request for endpoint `e` on `id`, authenticated with `token`, with JSON headers exactly when it has a body. */
  predicate Conforms(req: Request, e: Endpoint, token: string, id: string) {
    && req.verb == RouteVerb(e)
    && req.url == ApiBase + RoutePath(e, id)
    && "Authorization" in req.headers && req.headers["Authorization"] == "Bot " + token
    && (req.body.Some? <==> HasBody(e))
    && ("Content-Type" in req.headers <==> req.body.Some?)
    && ("Content-Type" in req.headers ==> req.headers["Content-Type"] == "application/json")
    && req.headers.Keys <= {"Authorization", "Content-Type"}
  }

  // ---------------------------------------------------------------------
  // Request construction, as the client writes it.
  // ---------------------------------------------------------------------

  function ChannelUrl(id: string): string {
    ApiBase + "/channels/" + id
  }

  function AuthHeaders(token: string): map<string, string> {
    map["Authorization" := "Bot " + token]
  }

  function JsonHeaders(token: string): map<string, string> {
    AuthHeaders(token)["Content-Type" := "application/json"]
  }

  function FetchChannelRequest(token: string, channelId: string): (req: Request)
    ensures Conforms(req, FetchChannel, token, channelId)
  {
    Request(GET, ChannelUrl(channelId), AuthHeaders(token), None)
  }

  function UpdateTagsRequest(token: string, channelId: string, tags: seq<ForumTag>): (req: Request)
    ensures Conforms(req, UpdateChannelTags, token, channelId)
    ensures req.body == Some(TagCatalog(PatchBody(tags)))
  {
    Request(PATCH, ChannelUrl(channelId), JsonHeaders(token), Some(TagCatalog(PatchBody(tags))))
  }

  function CreateThreadRequestFor(token: string, channelId: string, title: string, message: ThreadMessage, tagIds: seq<string>): (req: Request)
    ensures Conforms(req, StartThread, token, channelId)
    ensures req.body == Some(NewThread(CreateThreadRequest(title, message, tagIds)))
  {
    Request(POST, ChannelUrl(channelId) + "/threads", JsonHeaders(token),
            Some(NewThread(CreateThreadRequest(title, message, tagIds))))
  }

  function PostMessageRequest(token: string, threadId: string, message: ThreadMessage): (req: Request)
    ensures Conforms(req, SendToThread, token, threadId)
    ensures req.body == Some(Message(message))
  {
    Request(POST, ChannelUrl(threadId) + "/messages", JsonHeaders(token), Some(Message(message)))
  }

  function ArchiveThreadRequestFor(token: string, threadId: string): (req: Request)
    ensures Conforms(req, CloseThread, token, threadId)
    ensures req.body == Some(ArchiveFlag(ArchiveThreadRequest(true)))
  {
    Request(PATCH, ChannelUrl(threadId), JsonHeaders(token), Some(ArchiveFlag(ArchiveThreadRequest(true))))
  }

  // ---------------------------------------------------------------------
  // The operations as functions of their inputs and the replies they get.
  // ---------------------------------------------------------------------

  /** Second half of tag reconciliation: classify the reply to the catalog update and re-scan it. */
  function AfterPatch(repoName: string, reply: Reply): (r: Result<string>)
    ensures r.Ok? ==> reply.Response? && reply.status == 200 && reply.channel.Some?
                      && Tags.Named(reply.channel.value.availableTags, repoName)
    ensures r == Err(TagNotFound) <==>
              reply.Response? && reply.status == 200 && reply.channel.Some?
              && !Tags.Named(reply.channel.value.availableTags, repoName)
    ensures reply.Response? && reply.status != 200 ==> r == Err(Api(reply.status, reply.body))
  {
    match reply
    case TransportFailure => Err(Transport)
    case Response(status, body, channel, _) =>
      if status != 200 then Err(Api(status, body))
      else if channel.None? then Err(Parse)
      else match Tags.FindTag(channel.value.availableTags, repoName)
        case Some(id) => Ok(id)
        case None => Err(TagNotFound)
  }

  /** GetOrCreateRepoTag given the reply to the fetch and the reply the update would get. */
  function RepoTagRun(token: string, channelId: string, repoName: string, fetched: Reply, patched: Reply): (run: Run<string>)
    ensures 1 <= |run.sent| <= 2
    ensures run.sent[0] == FetchChannelRequest(token, channelId)
    ensures |run.sent| == 2 <==>
              fetched.Response? && fetched.status == 200 && fetched.channel.Some?
              && !Tags.Named(fetched.channel.value.availableTags, repoName)
    ensures |run.sent| == 2 ==>
              run.sent[1] == UpdateTagsRequest(token, channelId,
                                               Tags.WithNewTag(fetched.channel.value.availableTags, repoName))
    ensures run.result == Err(TagNotFound) ==> |run.sent| == 2
  {
    var fetch := FetchChannelRequest(token, channelId);
    match fetched
    case TransportFailure => Run([fetch], Err(Transport))
    case Response(status, body, channel, _) =>
      if status != 200 then Run([fetch], Err(Api(status, body)))
      else if channel.None? then Run([fetch], Err(Parse))
      else
        var tags := channel.value.availableTags;
        match Tags.FindTag(tags, repoName)
        case Some(id) => Run([fetch], Ok(id))
        case None =>
          var update := UpdateTagsRequest(token, channelId, Tags.WithNewTag(tags, repoName));
          Run([fetch, update], AfterPatch(repoName, patched))
  }

  function CreateThreadRun(token: string, channelId: string, title: string, message: ThreadMessage, tagIds: seq<string>, reply: Reply): (run: Run<string>)
    ensures |run.sent| == 1
    ensures run.result.Ok? <==> reply.Response? && reply.status == 201 && reply.thread.Some?
    ensures run.result.Ok? ==> run.result.value == reply.thread.value.id
    ensures reply.Response? && reply.status != 201 ==> run.result == Err(Api(reply.status, reply.body))
  {
    var req := CreateThreadRequestFor(token, channelId, title, message, tagIds);
    match reply
    case TransportFailure => Run([req], Err(Transport))
    case Response(status, body, _, thread) =>
      if status != 201 then Run([req], Err(Api(status, body)))
      else if thread.None? then Run([req], Err(Parse))
      else Run([req], Ok(thread.value.id))
  }

  function PostMessageRun(token: string, threadId: string, message: ThreadMessage, reply: Reply): (run: Run<()>)
    ensures |run.sent| == 1
    ensures run.result.Ok? <==> reply.Response? && (reply.status == 200 || reply.status == 201)
    ensures reply.TransportFailure? ==> run.result == Err(Transport)
    ensures run.result.Err? && reply.Response? ==> run.result == Err(Api(reply.status, reply.body))
  {
    var req := PostMessageRequest(token, threadId, message);
    match reply
    case TransportFailure => Run([req], Err(Transport))
    case Response(status, body, _, _) =>
      if status != 200 && status != 201 then Run([req], Err(Api(status, body)))
      else Run([req], Ok(()))
  }

  function ArchiveThreadRun(token: string, threadId: string, reply: Reply): (run: Run<()>)
    ensures |run.sent| == 1
    ensures run.result.Ok? <==> reply.Response? && reply.status == 200
    ensures reply.TransportFailure? ==> run.result == Err(Transport)
    ensures run.result.Err? && reply.Response? ==> run.result == Err(Api(reply.status, reply.body))
  {
    var req := ArchiveThreadRequestFor(token, threadId);
    match reply
    case TransportFailure => Run([req], Err(Transport))
    case Response(status, body, _, _) =>
      if status != 200 then Run([req], Err(Api(status, body)))
      else Run([req], Ok(()))
  }

  // ---------------------------------------------------------------------
  // The client. Its token and channel are fixed at construction; the only
  // state that changes is the remote's (what it was sent, what it has left).
  // ---------------------------------------------------------------------

  class Client {
    const token: string
    const forumChannelId: string
    const http: Remote

    constructor NewClient(token: string, forumChannelId: string, http: Remote)
      ensures this.token == token && this.forumChannelId == forumChannelId && this.http == http
    {
      this.token := token;
      this.forumChannelId := forumChannelId;
      this.http := http;
    }

    /** Resolves `repoName` to a forum tag id, adding the tag to the catalog when it is missing. */
    method GetOrCreateRepoTag(repoName: string) returns (r: Result<string>)
      modifies http
      ensures var run := RepoTagRun(token, forumChannelId, repoName,
                                    Upcoming(old(http.script), 0), Upcoming(old(http.script), 1));
              && http.log == old(http.log) + run.sent
              && http.script == Consumed(old(http.script), |run.sent|)
              && r == run.result
    {
      var url := ChannelUrl(forumChannelId);
      var req := Request(GET, url, AuthHeaders(token), None);
      var resp := http.Do(req);
      if resp.TransportFailure? {
        return Err(Transport);
      }
      if resp.status != 200 {
        return Err(Api(resp.status, resp.body));
      }
      if resp.channel.None? {
        return Err(Parse);
      }
      var tags := resp.channel.value.availableTags;
      var i := 0;
      while i < |tags|
        invariant 0 <= i <= |tags|
        invariant forall j :: 0 <= j < i ==> tags[j].name != repoName
      {
        if tags[i].name == repoName {
          return Ok(tags[i].id);
        }
        i := i + 1;
      }
      var newTags := tags + [ForumTag("", repoName)];
      var patchReq := Request(PATCH, url, JsonHeaders(token), Some(TagCatalog(PatchBody(newTags))));
      var patchResp := http.Do(patchReq);
      if patchResp.TransportFailure? {
        return Err(Transport);
      }
      if patchResp.status != 200 {
        return Err(Api(patchResp.status, patchResp.body));
      }
      if patchResp.channel.None? {
        return Err(Parse);
      }
      var updated := patchResp.channel.value.availableTags;
      i := 0;
      while i < |updated|
        invariant 0 <= i <= |updated|
        invariant forall j :: 0 <= j < i ==> updated[j].name != repoName
      {
        if updated[i].name == repoName {
          return Ok(updated[i].id);
        }
        i := i + 1;
      }
      return Err(TagNotFound);
    }

    /** Creates a thread titled `title` in the forum channel, opening with `message` and carrying `tagIds`. */
    method CreateThread(title: string, message: ThreadMessage, tagIds: seq<string>) returns (r: Result<string>)
      modifies http
      ensures var run := CreateThreadRun(token, forumChannelId, title, message, tagIds, Upcoming(old(http.script), 0));
              && http.log == old(http.log) + run.sent
              && http.script == Consumed(old(http.script), 1)
              && r == run.result
    {
      var url := ChannelUrl(forumChannelId) + "/threads";
      var body := CreateThreadRequest(title, message, tagIds);
      var resp := http.Do(Request(POST, url, JsonHeaders(token), Some(NewThread(body))));
      if resp.TransportFailure? {
        return Err(Transport);
      }
      if resp.status != 201 {
        return Err(Api(resp.status, resp.body));
      }
      if resp.thread.None? {
        return Err(Parse);
      }
      return Ok(resp.thread.value.id);
    }

    /** Posts `message` to the existing thread `threadId`. */
    method PostMessage(threadId: string, message: ThreadMessage) returns (r: Result<()>)
      modifies http
      ensures var run := PostMessageRun(token, threadId, message, Upcoming(old(http.script), 0));
              && http.log == old(http.log) + run.sent
              && http.script == Consumed(old(http.script), 1)
              && r == run.result
    {
      var url := ChannelUrl(threadId) + "/messages";
      var resp := http.Do(Request(POST, url, JsonHeaders(token), Some(Message(message))));
      if resp.TransportFailure? {
        return Err(Transport);
      }
      if resp.status != 200 && resp.status != 201 {
        return Err(Api(resp.status, resp.body));
      }
      return Ok(());
    }

    /** Archives the thread `threadId`. */
    method ArchiveThread(threadId: string) returns (r: Result<()>)
      modifies http
      ensures var run := ArchiveThreadRun(token, threadId, Upcoming(old(http.script), 0));
              && http.log == old(http.log) + run.sent
              && http.script == Consumed(old(http.script), 1)
              && r == run.result
    {
      var url := ChannelUrl(threadId);
      var body := ArchiveThreadRequest(true);
      var resp := http.Do(Request(PATCH, url, JsonHeaders(token), Some(ArchiveFlag(body))));
      if resp.TransportFailure? {
        return Err(Transport);
      }
      if resp.status != 200 {
        return Err(Api(resp.status, resp.body));
      }
      return Ok(());
    }
  }
}
