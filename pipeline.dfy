/**
 The generate, fetch and persist loop of `download_images`, stated as
 functions of what the outside world answered. The remote service, the image
 host and the file system are not modelled; for each prompt a `Reply` says
 what the POST returned (or raised), what the GET of the returned URL gave
 (or raised) and whether the file write succeeded (or raised). A step the
 loop never reaches leaves its part of the reply unused.
 */
module Pipeline {
  import opened Text

  type byte = x: int | 0 <= x < 256

  /** The generation endpoint and the model every request names. */
  const Endpoint := "https://api.veo.com/v1/images"
  const ModelName := "veo-3"
  const BearerPrefix := "Bearer "

  /** `response.json()["data"][0]["url"]` on a 200 response: a URL, or the
      message of whatever the decoding or the indexing raised. */
  datatype JsonBody = HasUrl(url: string) | Malformed(error: string)

  /** What `requests.post` gave: a response, or the message of the exception it raised. */
  datatype PostResult =
    | Responded(status: int, text: string, json: JsonBody)
    | PostRaised(error: string)

  /** What `requests.get(url).content` gave. */
  datatype FetchResult = Fetched(content: seq<byte>) | FetchRaised(error: string)

  /** Whether opening and writing `outputs/scene_{i}.jpg` succeeded. */
  datatype WriteResult = Written | WriteRaised(error: string)

  /** The outside world's answers for one prompt. */
  datatype Reply = Reply(post: PostResult, fetch: FetchResult, write: WriteResult)

  /** An HTTP request the loop issues. */
  datatype Request =
    | Post(url: string, authorization: string, prompt: string, model: string)
    | Get(url: string)

  /** A file as the store holds it: a text file, or raw bytes. */
  datatype FileData = TextFile(text: string) | Binary(bytes: seq<byte>)

  type Store = map<string, FileData>

  /** How one item ended. */
  datatype Outcome =
    | Downloaded(content: seq<byte>)
    | Rejected(status: int, text: string)
    | Errored(error: string)

  const DownloadedPrefix := "✅ Downloaded "
  const FailedPrefix := "❌ Failed for scene "
  /** U+26A0 WARNING SIGN followed by U+FE0F VARIATION SELECTOR-16. */
  const ErrorPrefix := "\U{26A0}\U{FE0F} Error: "

  /** Where the image of scene `i` is written. */
  function ScenePath(i: nat): string
  {
    "outputs/scene_" + NatToString(i) + ".jpg"
  }

  /** Different scenes never share a file. */
  lemma ScenePathInjective(i: nat, j: nat)
    ensures ScenePath(i) == ScenePath(j) <==> i == j
  {
    if ScenePath(i) == ScenePath(j) {
      var a, b := NatToString(i), NatToString(j);
      assert a + ".jpg" == ScenePath(i)[|"outputs/scene_"|..];
      assert b + ".jpg" == ScenePath(j)[|"outputs/scene_"|..];
      DigitsPrefixUnique(a, ".jpg", b, ".jpg");
      NatToStringInjective(i, j);
    }
  }

  /** The outcome of one item: the `try` block of the loop body. */
  function ItemOutcome(r: Reply): Outcome
  {
    match r.post
    case PostRaised(e) => Errored(e)
    case Responded(status, text, json) =>
      if status == 200 then
        match json
        case Malformed(e) => Errored(e)
        case HasUrl(_) =>
          match r.fetch
          case FetchRaised(e) => Errored(e)
          case Fetched(content) =>
            match r.write
            case WriteRaised(e) => Errored(e)
            case Written => Downloaded(content)
      else
        Rejected(status, text)
  }

  /** The requests issued for one prompt: the POST, then the GET of the
      returned URL when the POST answered 200 with a URL. */
  function ItemRequests(authorization: string, prompt: string, r: Reply): seq<Request>
  {
    [Post(Endpoint, authorization, prompt, ModelName)]
    + match r.post
      case Responded(200, _, HasUrl(url)) => [Get(url)]
      case _ => []
  }

  /** The one log line written for item `i`. */
  function ItemLog(i: nat, o: Outcome): string
  {
    match o
    case Downloaded(_) => DownloadedPrefix + ScenePath(i)
    case Rejected(_, text) => FailedPrefix + NatToString(i) + ": " + text
    case Errored(e) => ErrorPrefix + e
  }

  /** The store after item `i`: only a download writes, and only to `ScenePath(i)`. */
  function ItemStore(files: Store, i: nat, o: Outcome): Store
  {
    match o
    case Downloaded(content) => files[ScenePath(i) := Binary(content)]
    case _ => files
  }

  // ---------------------------------------------------------------------
  // The whole loop, item 1 to item |rs|

  /** The log lines of a batch whose items got the replies `rs`. */
  function BatchLog(rs: seq<Reply>): (log: seq<string>)
    ensures |log| == |rs|
    decreases |rs|
  {
    if rs == [] then []
    else BatchLog(rs[..|rs| - 1]) + [ItemLog(|rs|, ItemOutcome(rs[|rs| - 1]))]
  }

  /** The store after a batch whose items got the replies `rs`. */
  function BatchStore(files: Store, rs: seq<Reply>): Store
    decreases |rs|
  {
    if rs == [] then files
    else ItemStore(BatchStore(files, rs[..|rs| - 1]), |rs|, ItemOutcome(rs[|rs| - 1]))
  }

  /** The requests of a batch, item by item. */
  function BatchRequests(authorization: string, ps: seq<string>, rs: seq<Reply>): seq<Request>
    requires |ps| == |rs|
    decreases |rs|
  {
    if rs == [] then []
    else
      BatchRequests(authorization, ps[..|ps| - 1], rs[..|rs| - 1])
      + ItemRequests(authorization, ps[|ps| - 1], rs[|rs| - 1])
  }

  /** The POST requests among `reqs`, in order. */
  function Posts(reqs: seq<Request>): seq<Request>
    decreases |reqs|
  {
    if reqs == [] then []
    else (if reqs[0].Post? then [reqs[0]] else []) + Posts(reqs[1..])
  }

  // ---------------------------------------------------------------------
  // Properties

  /** One log line per item, whatever the other items' replies were: line `j`
      depends only on reply `j`. */
  lemma {:induction false} BatchLogSpec(rs: seq<Reply>)
    ensures |BatchLog(rs)| == |rs|
    ensures forall j :: 0 <= j < |rs| ==> BatchLog(rs)[j] == ItemLog(j + 1, ItemOutcome(rs[j]))
    decreases |rs|
  {
    if rs != [] {
      var init := rs[..|rs| - 1];
      BatchLogSpec(init);
      assert forall j :: 0 <= j < |init| ==> init[j] == rs[j];
    }
  }

  /** Each log line has exactly one of the three shapes, and which one is decided by the outcome. */
  lemma ItemLogShape(i: nat, o: Outcome)
    ensures o.Downloaded? <==> ItemLog(i, o) == DownloadedPrefix + ScenePath(i)
    ensures o.Rejected? <==>
      (|FailedPrefix| <= |ItemLog(i, o)| && ItemLog(i, o)[..|FailedPrefix|] == FailedPrefix)
    ensures o.Errored? <==>
      (|ErrorPrefix| <= |ItemLog(i, o)| && ItemLog(i, o)[..|ErrorPrefix|] == ErrorPrefix)
  {
    // The three prefixes already differ in their first character.
    assert ItemLog(i, o)[0] == (match o
      case Downloaded(_) => DownloadedPrefix[0]
      case Rejected(_, _) => FailedPrefix[0]
      case Errored(_) => ErrorPrefix[0]);
  }

  /** A path that is no scene of the batch keeps its old entry. */
  lemma {:induction false} BatchStoreOutside(files: Store, rs: seq<Reply>, p: string)
    requires forall k :: 1 <= k <= |rs| ==> p != ScenePath(k)
    ensures p in BatchStore(files, rs) <==> p in files
    ensures p in files ==> BatchStore(files, rs)[p] == files[p]
    decreases |rs|
  {
    if rs != [] {
      BatchStoreOutside(files, rs[..|rs| - 1], p);
    }
  }

  /** The file of scene `j + 1` after the batch: the downloaded bytes if item
      `j` succeeded, its old entry otherwise. */
  lemma {:induction false} BatchStoreScene(files: Store, rs: seq<Reply>, j: nat)
    requires j < |rs|
    ensures var p := ScenePath(j + 1);
      if ItemOutcome(rs[j]).Downloaded? then
        p in BatchStore(files, rs) && BatchStore(files, rs)[p] == Binary(ItemOutcome(rs[j]).content)
      else
        && (p in BatchStore(files, rs) <==> p in files)
        && (p in files ==> BatchStore(files, rs)[p] == files[p])
    decreases |rs|
  {
    var n := |rs|;
    var init := rs[..n - 1];
    if j == n - 1 {
      forall k | 1 <= k <= |init|
        ensures ScenePath(n) != ScenePath(k)
      {
        ScenePathInjective(k, n);
      }
      BatchStoreOutside(files, init, ScenePath(n));
    } else {
      BatchStoreScene(files, init, j);
      assert init[j] == rs[j];
      ScenePathInjective(j + 1, n);
    }
  }

  /** What the batch leaves in the store: for every scene of the batch, the
      downloaded bytes if that scene succeeded and the old entry otherwise;
      every other path keeps its old entry. */
  lemma BatchStoreSpec(files: Store, rs: seq<Reply>)
    ensures forall j :: 0 <= j < |rs| && ItemOutcome(rs[j]).Downloaded? ==>
      && ScenePath(j + 1) in BatchStore(files, rs)
      && BatchStore(files, rs)[ScenePath(j + 1)] == Binary(ItemOutcome(rs[j]).content)
    ensures forall j :: 0 <= j < |rs| && !ItemOutcome(rs[j]).Downloaded? ==>
      && (ScenePath(j + 1) in BatchStore(files, rs) <==> ScenePath(j + 1) in files)
      && (ScenePath(j + 1) in files ==> BatchStore(files, rs)[ScenePath(j + 1)] == files[ScenePath(j + 1)])
    ensures forall p :: (forall k :: 1 <= k <= |rs| ==> p != ScenePath(k)) ==>
      && (p in BatchStore(files, rs) <==> p in files)
      && (p in files ==> BatchStore(files, rs)[p] == files[p])
  {
    forall j | 0 <= j < |rs|
      ensures var p := ScenePath(j + 1);
        if ItemOutcome(rs[j]).Downloaded? then
          p in BatchStore(files, rs) && BatchStore(files, rs)[p] == Binary(ItemOutcome(rs[j]).content)
        else
          && (p in BatchStore(files, rs) <==> p in files)
          && (p in files ==> BatchStore(files, rs)[p] == files[p])
    {
      BatchStoreScene(files, rs, j);
    }
    forall p | forall k :: 1 <= k <= |rs| ==> p != ScenePath(k)
      ensures && (p in BatchStore(files, rs) <==> p in files)
              && (p in files ==> BatchStore(files, rs)[p] == files[p])
    {
      BatchStoreOutside(files, rs, p);
    }
  }

  /** One more item extends the batch's log, store and requests by that item's. */
  lemma BatchStep(files: Store, authorization: string, ps: seq<string>, rs: seq<Reply>, i: nat)
    requires |ps| == |rs| && 1 <= i <= |rs|
    ensures BatchLog(rs[..i]) == BatchLog(rs[..i - 1]) + [ItemLog(i, ItemOutcome(rs[i - 1]))]
    ensures BatchStore(files, rs[..i]) == ItemStore(BatchStore(files, rs[..i - 1]), i, ItemOutcome(rs[i - 1]))
    ensures BatchRequests(authorization, ps[..i], rs[..i])
      == BatchRequests(authorization, ps[..i - 1], rs[..i - 1]) + ItemRequests(authorization, ps[i - 1], rs[i - 1])
  {
    assert rs[..i][..i - 1] == rs[..i - 1];
    assert ps[..i][..i - 1] == ps[..i - 1];
  }

  /** Item isolation: whatever the other items got, the log line of item `j`
      and the file of scene `j + 1` depend only on the reply to item `j`. */
  lemma FailureIsolation(files: Store, rs: seq<Reply>, rs': seq<Reply>, j: nat)
    requires |rs| == |rs'| && j < |rs|
    requires rs[j] == rs'[j]
    ensures BatchLog(rs)[j] == BatchLog(rs')[j]
    ensures ScenePath(j + 1) in BatchStore(files, rs) <==> ScenePath(j + 1) in BatchStore(files, rs')
    ensures ScenePath(j + 1) in BatchStore(files, rs) ==>
      BatchStore(files, rs)[ScenePath(j + 1)] == BatchStore(files, rs')[ScenePath(j + 1)]
  {
    BatchLogSpec(rs);
    BatchLogSpec(rs');
    BatchStoreSpec(files, rs);
    BatchStoreSpec(files, rs');
  }

  /** The POSTs of a sequence of requests split along a concatenation. */
  lemma {:induction false} PostsAppend(a: seq<Request>, b: seq<Request>)
    ensures Posts(a + b) == Posts(a) + Posts(b)
    decreases |a|
  {
    if a == [] {
      assert a + b == b;
    } else {
      assert (a + b)[0] == a[0];
      assert (a + b)[1..] == a[1..] + b;
      PostsAppend(a[1..], b);
    }
  }

  /** Per item: exactly one POST, carrying the prompt, the model and the
      authorization; a GET only after a 200 answer with a URL, and then of
      that URL; nothing fetched after a raised POST, a malformed answer or a
      rejection. */
  lemma ItemRequestsSpec(authorization: string, prompt: string, r: Reply)
    ensures Posts(ItemRequests(authorization, prompt, r)) == [Post(Endpoint, authorization, prompt, ModelName)]
    ensures ItemRequests(authorization, prompt, r)[0] == Post(Endpoint, authorization, prompt, ModelName)
    ensures |ItemRequests(authorization, prompt, r)|
      == if r.post.Responded? && r.post.status == 200 && r.post.json.HasUrl? then 2 else 1
    ensures |ItemRequests(authorization, prompt, r)| == 2 ==>
      ItemRequests(authorization, prompt, r)[1] == Get(r.post.json.url)
    ensures ItemOutcome(r).Rejected? ==> |ItemRequests(authorization, prompt, r)| == 1
    ensures ItemOutcome(r).Downloaded? ==> |ItemRequests(authorization, prompt, r)| == 2
  {
    var reqs := ItemRequests(authorization, prompt, r);
    PostsAppend([reqs[0]], reqs[1..]);
    assert [reqs[0]] + reqs[1..] == reqs;
    if |reqs| == 2 {
      assert Posts(reqs[1..]) == Posts([reqs[1]]);
    }
  }

  /** Over the batch: one POST per prompt, in prompt order, each with the same authorization. */
  lemma {:induction false} BatchPostsSpec(authorization: string, ps: seq<string>, rs: seq<Reply>)
    requires |ps| == |rs|
    ensures Posts(BatchRequests(authorization, ps, rs))
      == seq(|ps|, j requires 0 <= j < |ps| => Post(Endpoint, authorization, ps[j], ModelName))
    decreases |rs|
  {
    if rs != [] {
      var n := |rs|;
      BatchPostsSpec(authorization, ps[..n - 1], rs[..n - 1]);
      PostsAppend(BatchRequests(authorization, ps[..n - 1], rs[..n - 1]),
                  ItemRequests(authorization, ps[n - 1], rs[n - 1]));
      ItemRequestsSpec(authorization, ps[n - 1], rs[n - 1]);
    }
  }
}
