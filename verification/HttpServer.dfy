/** The per-connection machine that collects a POST body and hands it to the dispatcher. */
module HttpServers {
  import opened Types
  import opened Reactions
  import opened Health
  import opened MemoryString
  import opened StateProxies
  import opened Schedulers

  datatype Outcome = Continue | Dispatch(body: string)

  /** The connection's stored body, what the call did, and the upload size left for the caller to see. */
  datatype Received = Received(post: Option<string>, outcome: Outcome, sizeLeft: nat)

  function Receive(post: Option<string>, verb: string, upload: string): Received {
    if verb == "POST" && post.None? then Received(Some(""), Continue, |upload|)
    else if verb == "POST" && |upload| > 0 then Received(Some(post.value + upload), Continue, 0)
    else Received(post, Dispatch(if post.Some? then post.value else ""), |upload|)
  }

  class Connection {
    var post: Option<string>

    constructor ()
      ensures post == None
    {
      post := None;
    }

    method HandleRequest(scheduler: QuobyteScheduler, url: string, verb: string, upload: string)
      returns (dispatched: bool, sizeLeft: nat, page: Option<string>)
      requires scheduler.Valid()
      modifies this, scheduler.state, scheduler.state.cell
      ensures scheduler.Valid()
      ensures var r := Receive(old(post), verb, upload);
              post == r.post && sizeLeft == r.sizeLeft && dispatched == r.outcome.Dispatch?
      ensures verb != "POST" ==> dispatched && post == old(post) && sizeLeft == |upload|
      ensures verb == "POST" && old(post).None? ==> !dispatched && post == Some("") && sizeLeft == |upload|
      ensures verb == "POST" && old(post).Some? ==>
                && dispatched == (upload == "") && post == Some(old(post).value + upload) && sizeLeft == 0
      ensures var was := old(scheduler.View());
              scheduler.View() == if dispatched && "/v1/version" <= url && verb == "POST"
                                  then was.(persistent := was.persistent.(targetVersion := old(post).value)) else was
      ensures page == if dispatched && "/v1/version" <= url then Some(scheduler.View().persistent.targetVersion)
                      else if dispatched && verb == "GET" && url == "/v1/health" then
                        Some("OK. Running services: " + Decimal(|RunningServices(scheduler.View())|))
                      else None
    {
      sizeLeft, page := |upload|, None;
      if verb == "POST" {
        if post.None? {
          post := Some("");
          return false, sizeLeft, page;
        }
        if sizeLeft > 0 {
          post := Some(post.value + upload);
          sizeLeft := 0;
          return false, sizeLeft, page;
        }
      }
      assert post.Some? ==> post.value + "" == post.value;
      page := scheduler.HandleHttp(verb, url, if post.Some? then post.value else "");
      dispatched := true;
    }
  }

  /** What a sequence of calls on one connection leaves stored and hands to the dispatcher, in order. */
  datatype Session = Session(post: Option<string>, bodies: seq<string>)

  function RunSession(post: Option<string>, verb: string, uploads: seq<string>): Session {
    if uploads == [] then Session(post, [])
    else
      var before := RunSession(post, verb, uploads[..|uploads| - 1]);
      var r := Receive(before.post, verb, uploads[|uploads| - 1]);
      Session(r.post, before.bodies + if r.outcome.Dispatch? then [r.outcome.body] else [])
  }

  function Concat(chunks: seq<string>): string {
    if chunks == [] then "" else Concat(chunks[..|chunks| - 1]) + chunks[|chunks| - 1]
  }

  function EmptyChunks(chunks: seq<string>): nat {
    if chunks == [] then 0
    else EmptyChunks(chunks[..|chunks| - 1]) + if chunks[|chunks| - 1] == "" then 1 else 0
  }

  /** Calls with any other verb are dispatched one by one, with whatever is stored, and store nothing. */
  lemma {:induction false} OtherVerbs(post: Option<string>, verb: string, uploads: seq<string>)
    requires verb != "POST"
    ensures var s := RunSession(post, verb, uploads);
            && s.post == post && |s.bodies| == |uploads|
            && forall k | 0 <= k < |uploads| :: s.bodies[k] == if post.Some? then post.value else ""
  {
    if uploads != [] {
      OtherVerbs(post, verb, uploads[..|uploads| - 1]);
    }
  }

  /** The calls of one POST request: a header call, the chunks, and a final call without data. */
  function PostCalls(header: string, chunks: seq<string>): seq<string> {
    [header] + chunks + [""]
  }

  /** Header call and chunks store the concatenation; only an empty chunk dispatches early. */
  lemma {:induction false} ChunksCollected(header: string, chunks: seq<string>)
    ensures var s := RunSession(None, "POST", [header] + chunks);
            s.post == Some(Concat(chunks)) && |s.bodies| == EmptyChunks(chunks)
  {
    var uploads := [header] + chunks;
    if chunks == [] {
      assert uploads[..0] == [];
    } else {
      assert uploads[..|uploads| - 1] == [header] + chunks[..|chunks| - 1];
      ChunksCollected(header, chunks[..|chunks| - 1]);
      assert uploads[|uploads| - 1] == chunks[|chunks| - 1];
      assert Concat(chunks[..|chunks| - 1]) + "" == Concat(chunks[..|chunks| - 1]);
    }
  }

  /**
   * Chunking independence: the dispatcher runs once plus once per empty chunk, so exactly once exactly when all
   * chunks are non-empty, and its last run gets the whole body.
   */
  lemma ChunkingIndependent(header: string, chunks: seq<string>)
    ensures var bodies := RunSession(None, "POST", PostCalls(header, chunks)).bodies;
            && |bodies| == 1 + EmptyChunks(chunks)
            && bodies[|bodies| - 1] == Concat(chunks)
            && (bodies == [Concat(chunks)] <==> forall c | c in chunks :: c != "")
  {
    var uploads := PostCalls(header, chunks);
    assert uploads[..|uploads| - 1] == [header] + chunks;
    ChunksCollected(header, chunks);
    EmptyChunksCounts(chunks);
  }

  lemma {:induction false} EmptyChunksCounts(chunks: seq<string>)
    ensures EmptyChunks(chunks) == 0 <==> forall c | c in chunks :: c != ""
  {
    if chunks != [] {
      var front, last := chunks[..|chunks| - 1], chunks[|chunks| - 1];
      assert chunks == front + [last];
      EmptyChunksCounts(front);
      assert last in chunks;
      assert forall c | c in front :: c in chunks;
      assert forall c | c in chunks :: c in front || c == last;
    }
  }

  /** The scheduler after a list of bodies has been posted to a version URL. */
  function PostVersions(s: SchedState, bodies: seq<string>): SchedState {
    if bodies == [] then s
    else SetTargetVersion(PostVersions(s, bodies[..|bodies| - 1]), bodies[|bodies| - 1])
  }

  /** A version POST stores the same target version however it was split. */
  lemma VersionPostChunked(s: SchedState, header: string, chunks: seq<string>)
    ensures PostVersions(s, RunSession(None, "POST", PostCalls(header, chunks)).bodies) == SetTargetVersion(s, Concat(chunks))
  {
    ChunkingIndependent(header, chunks);
    var bodies := RunSession(None, "POST", PostCalls(header, chunks)).bodies;
    OnlyVersionChanges(s, bodies[..|bodies| - 1]);
  }

  lemma {:induction false} OnlyVersionChanges(s: SchedState, bodies: seq<string>)
    ensures PostVersions(s, bodies) == SetTargetVersion(s, PostVersions(s, bodies).persistent.targetVersion)
  {
    if bodies != [] {
      OnlyVersionChanges(s, bodies[..|bodies| - 1]);
    }
  }
}
