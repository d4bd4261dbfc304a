/**
 * What the Discord client promises, stated over the pure descriptions of
 * its operations (and so, through the methods' postconditions, over the
 * client itself): which requests each operation issues, how it classifies
 * the replies, and what tag reconciliation returns.
 */
module Properties {
  import opened Wrappers
  import opened Wire
  import opened Http
  import opened Discord
  import Tags

  /** How many of the requests use `verb`. */
  function CountVerb(sent: seq<Request>, verb: Method): nat
  {
    if sent == [] then 0
    else (if sent[0].verb == verb then 1 else 0) + CountVerb(sent[1..], verb)
  }

  /** Counting the requests of two stretches of a log adds up. */
  lemma {:induction false} CountVerbConcat(a: seq<Request>, b: seq<Request>, verb: Method)
    ensures CountVerb(a + b, verb) == CountVerb(a, verb) + CountVerb(b, verb)
  {
    if a == [] {
      assert a + b == b;
    } else {
      assert (a + b)[1..] == a[1..] + b;
      CountVerbConcat(a[1..], b, verb);
    }
  }

  /** The verb counts of a one- or two-request run, read off its requests. */
  lemma CountShortRun(sent: seq<Request>, verb: Method)
    requires 1 <= |sent| <= 2
    ensures CountVerb(sent, verb) ==
              (if sent[0].verb == verb then 1 else 0) + (if |sent| == 2 && sent[1].verb == verb then 1 else 0)
  {
    if |sent| == 2 {
      assert sent == [sent[0]] + [sent[1]];
      CountVerbConcat([sent[0]], [sent[1]], verb);
    }
  }

  /** The fetch succeeded: status 200 and a body that decodes as a channel. */
  predicate FetchOk(fetched: Reply) {
    fetched.Response? && fetched.status == 200 && fetched.channel.Some?
  }

  // ---------------------------------------------------------------------
  // Tag reconciliation
  // ---------------------------------------------------------------------

  /** Every run fetches once, updates at most once, and only in the order fetch then update. */
  lemma RepoTagRequests(token: string, channelId: string, repoName: string, fetched: Reply, patched: Reply)
    ensures var run := RepoTagRun(token, channelId, repoName, fetched, patched);
            && 1 <= |run.sent| <= 2
            && run.sent[0] == FetchChannelRequest(token, channelId)
            && Conforms(run.sent[0], FetchChannel, token, channelId)
            && (|run.sent| == 2 ==> Conforms(run.sent[1], UpdateChannelTags, token, channelId))
            && CountVerb(run.sent, GET) == 1
            && CountVerb(run.sent, PATCH) == |run.sent| - 1
            && (|run.sent| == 2 <==> FetchOk(fetched) && !Tags.Named(fetched.channel.value.availableTags, repoName))
  {
    var run := RepoTagRun(token, channelId, repoName, fetched, patched);
    CountShortRun(run.sent, GET);
    CountShortRun(run.sent, PATCH);
  }

  /** Fast path: a tag already named `repoName` is reused, the first such one, and nothing is updated. */
  lemma RepoTagFastPath(token: string, channelId: string, repoName: string, fetched: Reply, patched: Reply)
    requires FetchOk(fetched)
    requires Tags.Named(fetched.channel.value.availableTags, repoName)
    ensures var run := RepoTagRun(token, channelId, repoName, fetched, patched);
            var tags := fetched.channel.value.availableTags;
            && run.sent == [FetchChannelRequest(token, channelId)]
            && CountVerb(run.sent, GET) == 1 && CountVerb(run.sent, PATCH) == 0
            && exists i :: 0 <= i < |tags| && tags[i].name == repoName
                           && (forall j :: 0 <= j < i ==> tags[j].name != repoName)
                           && run.result == Ok(tags[i].id)
  {
  }

  /** Slow path: exactly one update is sent, carrying the fetched catalog unchanged with one id-less tag appended. */
  lemma RepoTagSlowPathBody(token: string, channelId: string, repoName: string, fetched: Reply, patched: Reply)
    requires FetchOk(fetched)
    requires !Tags.Named(fetched.channel.value.availableTags, repoName)
    ensures var run := RepoTagRun(token, channelId, repoName, fetched, patched);
            var tags := fetched.channel.value.availableTags;
            && |run.sent| == 2
            && CountVerb(run.sent, GET) == 1 && CountVerb(run.sent, PATCH) == 1
            && run.sent[1].verb == PATCH
            && run.sent[1].url == run.sent[0].url
            && run.sent[1].body.Some? && run.sent[1].body.value.TagCatalog?
            && var sentTags := run.sent[1].body.value.patch.availableTags;
               && |sentTags| == |tags| + 1
               && sentTags[..|tags|] == tags
               && sentTags[|tags|] == ForumTag("", repoName)
  {
    var run := RepoTagRun(token, channelId, repoName, fetched, patched);
    CountShortRun(run.sent, GET);
    CountShortRun(run.sent, PATCH);
  }

  /** A failed fetch ends the run with an error and no update; an API error keeps the status and body. */
  lemma RepoTagFetchFailure(token: string, channelId: string, repoName: string, fetched: Reply, patched: Reply)
    requires !FetchOk(fetched)
    ensures var run := RepoTagRun(token, channelId, repoName, fetched, patched);
            && run.sent == [FetchChannelRequest(token, channelId)]
            && CountVerb(run.sent, PATCH) == 0
            && run.result == (if fetched.TransportFailure? then Err(Transport)
                              else if fetched.status != 200 then Err(Api(fetched.status, fetched.body))
                              else Err(Parse))
  {
  }

  /**
   * An accepted update is re-scanned: the result is the id of the first tag
   * named `repoName` in the reply, and "tag created but not found" exactly
   * when the reply names no such tag.
   */
  lemma RepoTagPatchAccepted(token: string, channelId: string, repoName: string, fetched: Reply, patched: Reply)
    requires FetchOk(fetched) && !Tags.Named(fetched.channel.value.availableTags, repoName)
    requires FetchOk(patched)
    ensures var run := RepoTagRun(token, channelId, repoName, fetched, patched);
            var updated := patched.channel.value.availableTags;
            && (run.result == Err(TagNotFound) <==> !Tags.Named(updated, repoName))
            && (run.result.Ok? <==> Tags.Named(updated, repoName))
            && (run.result.Ok? ==>
                  exists i :: 0 <= i < |updated| && updated[i].name == repoName
                              && (forall j :: 0 <= j < i ==> updated[j].name != repoName)
                              && run.result.value == updated[i].id)
  {
  }

  /** A rejected, lost or unreadable update reply is an error; a rejected one keeps its status and body. */
  lemma RepoTagPatchFailure(token: string, channelId: string, repoName: string, fetched: Reply, patched: Reply)
    requires FetchOk(fetched) && !Tags.Named(fetched.channel.value.availableTags, repoName)
    requires !FetchOk(patched)
    ensures RepoTagRun(token, channelId, repoName, fetched, patched).result ==
              if patched.TransportFailure? then Err(Transport)
              else if patched.status != 200 then Err(Api(patched.status, patched.body))
              else Err(Parse)
  {
  }

  /** Any id returned names `repoName` in the catalog last reported by the remote; a missing tag never becomes a success. */
  lemma RepoTagResultSound(token: string, channelId: string, repoName: string, fetched: Reply, patched: Reply)
    requires RepoTagRun(token, channelId, repoName, fetched, patched).result.Ok?
    ensures var run := RepoTagRun(token, channelId, repoName, fetched, patched);
            var reported := if |run.sent| == 1 then fetched else patched;
            && FetchOk(reported)
            && ForumTag(run.result.value, repoName) in reported.channel.value.availableTags
  {
  }

  /**
   * Self-healing: once a run has returned an id, a later run whose fetch sees
   * the catalog the remote last reported takes the fast path to the same id.
   */
  lemma RepoTagRepeatReuses(token: string, channelId: string, repoName: string,
                            fetched: Reply, patched: Reply, refetched: Reply, unused: Reply)
    requires RepoTagRun(token, channelId, repoName, fetched, patched).result.Ok?
    requires FetchOk(refetched)
    requires |RepoTagRun(token, channelId, repoName, fetched, patched).sent| == 1 ==>
               refetched.channel == fetched.channel
    requires |RepoTagRun(token, channelId, repoName, fetched, patched).sent| == 2 ==>
               refetched.channel == patched.channel
    ensures RepoTagRun(token, channelId, repoName, refetched, unused) ==
              Run([FetchChannelRequest(token, channelId)], RepoTagRun(token, channelId, repoName, fetched, patched).result)
  {
  }

  /** A remote that echoes the update back without assigning an id yields the empty id as a success. */
  lemma RepoTagEchoedPatchGivesEmptyId(token: string, channelId: string, repoName: string, tags: seq<ForumTag>,
                                       fetchBody: string, patchBody: string)
    requires !Tags.Named(tags, repoName)
    ensures RepoTagRun(token, channelId, repoName,
                       Response(200, fetchBody, Some(ForumChannelResponse(tags)), None),
                       Response(200, patchBody, Some(ForumChannelResponse(Tags.WithNewTag(tags, repoName))), None)).result
            == Ok("")
  {
  }

  // ---------------------------------------------------------------------
  // Thread operations
  // ---------------------------------------------------------------------

  /** CreateThread sends one thread-creation request and succeeds exactly on 201 with a decodable body, returning its id. */
  lemma CreateThreadContract(token: string, channelId: string, title: string, message: ThreadMessage,
                             tagIds: seq<string>, reply: Reply)
    ensures var run := CreateThreadRun(token, channelId, title, message, tagIds, reply);
            && |run.sent| == 1
            && Conforms(run.sent[0], StartThread, token, channelId)
            && run.sent[0].body == Some(NewThread(CreateThreadRequest(title, message, tagIds)))
            && (run.result.Ok? <==> reply.Response? && reply.status in SuccessCodes(StartThread) && reply.thread.Some?)
            && (run.result.Ok? ==> run.result.value == reply.thread.value.id)
            && (reply.TransportFailure? ==> run.result == Err(Transport))
            && (reply.Response? && reply.status !in SuccessCodes(StartThread) ==>
                  run.result == Err(Api(reply.status, reply.body)))
            && (reply.Response? && reply.status in SuccessCodes(StartThread) && reply.thread.None? ==>
                  run.result == Err(Parse))
  {
  }

  /** PostMessage sends one message request and succeeds exactly on 200 or 201. */
  lemma PostMessageContract(token: string, threadId: string, message: ThreadMessage, reply: Reply)
    ensures var run := PostMessageRun(token, threadId, message, reply);
            && |run.sent| == 1
            && Conforms(run.sent[0], SendToThread, token, threadId)
            && run.sent[0].body == Some(Message(message))
            && (run.result.Ok? <==> reply.Response? && reply.status in SuccessCodes(SendToThread))
            && (reply.TransportFailure? ==> run.result == Err(Transport))
            && (reply.Response? && reply.status !in SuccessCodes(SendToThread) ==>
                  run.result == Err(Api(reply.status, reply.body)))
  {
  }

  /** ArchiveThread sends one `{archived: true}` update and succeeds exactly on 200. */
  lemma ArchiveThreadContract(token: string, threadId: string, reply: Reply)
    ensures var run := ArchiveThreadRun(token, threadId, reply);
            && |run.sent| == 1
            && Conforms(run.sent[0], CloseThread, token, threadId)
            && run.sent[0].body == Some(ArchiveFlag(ArchiveThreadRequest(true)))
            && (run.result.Ok? <==> reply.Response? && reply.status in SuccessCodes(CloseThread))
            && (reply.TransportFailure? ==> run.result == Err(Transport))
            && (reply.Response? && reply.status !in SuccessCodes(CloseThread) ==>
                  run.result == Err(Api(reply.status, reply.body)))
  {
  }

  // ---------------------------------------------------------------------
  // Headers
  // ---------------------------------------------------------------------

  /** The bot token on every request; JSON content type exactly on the requests with a body. */
  predicate Authenticated(req: Request, token: string) {
    && "Authorization" in req.headers && req.headers["Authorization"] == "Bot " + token
    && ("Content-Type" in req.headers <==> req.body.Some?)
    && ("Content-Type" in req.headers ==> req.headers["Content-Type"] == "application/json")
  }

  lemma EveryRequestAuthenticated(token: string, channelId: string, threadId: string, repoName: string,
                                  title: string, message: ThreadMessage, tagIds: seq<string>,
                                  first: Reply, second: Reply)
    ensures forall req <- RepoTagRun(token, channelId, repoName, first, second).sent :: Authenticated(req, token)
    ensures forall req <- CreateThreadRun(token, channelId, title, message, tagIds, first).sent :: Authenticated(req, token)
    ensures forall req <- PostMessageRun(token, threadId, message, first).sent :: Authenticated(req, token)
    ensures forall req <- ArchiveThreadRun(token, threadId, first).sent :: Authenticated(req, token)
    ensures forall req <- RepoTagRun(token, channelId, repoName, first, second).sent ::
              req.body.Some? <==> req.verb == PATCH
  {
  }
}
