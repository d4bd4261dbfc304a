/**
 * Concrete runs of the client against scripted remotes: the reuse and
 * creation scenarios of tag reconciliation, a thread creation, and a
 * refused archive. The methods use only the client's postconditions.
 */
module Scenarios {
  import opened Wrappers
  import opened Wire
  import opened Http
  import opened Discord
  import Properties
  import Tags

  /** The catalog already has repoA: its id comes back and only the fetch is sent. */
  method ReuseExistingTag(token: string, channelId: string)
  {
    var fetchReply := Response(200, "{\"available_tags\":[{\"id\":\"1\",\"name\":\"repoA\"}]}",
                               Some(ForumChannelResponse([ForumTag("1", "repoA")])), None);
    var remote := new Remote([fetchReply]);
    var client := new Client.NewClient(token, channelId, remote);
    var r := client.GetOrCreateRepoTag("repoA");
    assert r == Ok("1");
    assert remote.log == [FetchChannelRequest(token, channelId)];
    assert Properties.CountVerb(remote.log, PATCH) == 0;
  }

  /** An empty catalog: repoB is appended, and the id the remote assigned comes back. */
  method CreateMissingTag(token: string, channelId: string)
  {
    var fetchReply := Response(200, "{\"available_tags\":[]}", Some(ForumChannelResponse([])), None);
    var patchReply := Response(200, "{\"available_tags\":[{\"id\":\"42\",\"name\":\"repoB\"}]}",
                               Some(ForumChannelResponse([ForumTag("42", "repoB")])), None);
    var remote := new Remote([fetchReply, patchReply]);
    var client := new Client.NewClient(token, channelId, remote);
    var r := client.GetOrCreateRepoTag("repoB");
    assert r == Ok("42");
    assert |remote.log| == 2;
    assert Tags.WithNewTag([], "repoB") == [ForumTag("", "repoB")];
    assert remote.log[1] == UpdateTagsRequest(token, channelId, [ForumTag("", "repoB")]);
    assert remote.script == [];
  }

  /** The update is accepted but the reply lacks repoC: the run fails instead of returning an id. */
  method CreatedTagMissing(token: string, channelId: string)
  {
    var fetchReply := Response(200, "{\"available_tags\":[]}", Some(ForumChannelResponse([])), None);
    var patchReply := Response(200, "{\"available_tags\":[]}", Some(ForumChannelResponse([])), None);
    var remote := new Remote([fetchReply, patchReply]);
    var client := new Client.NewClient(token, channelId, remote);
    var r := client.GetOrCreateRepoTag("repoC");
    assert r == Err(TagNotFound);
  }

  /** A thread created with 201 returns the id of the reply. */
  method CreateIssueThread(token: string, channelId: string)
  {
    var reply := Response(201, "{\"id\":\"999\",\"name\":\"Issue #1\"}", None,
                          Some(CreateThreadResponse("999", "Issue #1")));
    var remote := new Remote([reply]);
    var client := new Client.NewClient(token, channelId, remote);
    var r := client.CreateThread("Issue #1", ThreadMessage("body", []), []);
    assert r == Ok("999");
    assert remote.log[0].url == ApiBase + "/channels/" + channelId + "/threads";
  }

  /** Archiving refused with 403 reports that status and the remote's body verbatim. */
  method ArchiveForbidden(token: string, channelId: string)
  {
    var reply := Response(403, "{\"message\":\"Missing Permissions\"}", None, None);
    var remote := new Remote([reply]);
    var client := new Client.NewClient(token, channelId, remote);
    var r := client.ArchiveThread("999");
    assert r == Err(Api(403, "{\"message\":\"Missing Permissions\"}"));
  }

  /** A message accepted with 200 and one accepted with 201 both succeed; a lost connection does not. */
  method PostFollowUps(token: string, channelId: string)
  {
    var remote := new Remote([Response(200, "", None, None), Response(201, "", None, None)]);
    var client := new Client.NewClient(token, channelId, remote);
    var m := ThreadMessage("update", []);
    var r1 := client.PostMessage("999", m);
    var r2 := client.PostMessage("999", m);
    var r3 := client.PostMessage("999", m);
    assert r1 == Ok(()) && r2 == Ok(());
    assert r3 == Err(Transport);
    assert |remote.log| == 3;
  }
}
