/**
 The `StoryGenApp` window as an object: the prompt list, the log box, the
 preview list and the file store are its state, and each button handler is
 a method that updates them. What the user typed or chose (story title,
 image count, API key, export path) arrives as a parameter, and what the
 network and the file system answered arrives as a sequence of `Reply`
 values, one per prompt.
 */
module StoryGen {
  import opened Text
  import opened Prompts
  import opened Pipeline

  const KeyLoadedMsg := "✅ API Key loaded."
  const NoKeyMsg := "❌ No API key provided."
  const NoTitleMsg := "❌ Please enter a story title."
  const NoPromptsToExportMsg := "❌ No prompts to export."
  const ExportedPrefix := "✅ Prompts exported to "
  const GenerateFirstMsg := "❌ Generate prompts first."
  const KeyMissingMsg := "❌ API key is missing."

  class StoryGenApp {
    /** The prompts of the last batch built. */
    var prompts: seq<string>
    /** The lines of the log box, oldest first. */
    var log: seq<string>
    /** The entries of the preview list. */
    var preview: seq<string>
    /** The file system, path to content. */
    var files: Store

    /** The title and size of the last batch built (empty before the first one). */
    ghost var title: string
    ghost var count: nat

    /** The prompt list is always a whole batch, and the preview always lists exactly it. */
    ghost predicate Valid()
      reads this
    {
      && prompts == BuildPrompts(title, count)
      && preview == PreviewLines(prompts)
    }

    /** A fresh window over the file system `initial`: no prompts, empty log and preview. */
    constructor (initial: Store)
      ensures Valid()
      ensures prompts == [] && log == [] && preview == [] && files == initial
    {
      prompts := [];
      log := [];
      preview := [];
      files := initial;
      title := "";
      count := 0;
    }

    /** Appends one line to the log box. */
    method Log(text: string)
      modifies this`log
      ensures log == old(log) + [text]
    {
      log := log + [text];
    }

    /** "Check API": says whether a (trimmed) key was entered, and nothing else. */
    method CheckApi(keyText: string)
      requires Valid()
      modifies this`log
      ensures Valid()
      ensures log == old(log) + [if Trim(keyText) != "" then KeyLoadedMsg else NoKeyMsg]
    {
      var apiKey := Trim(keyText);
      if apiKey != "" {
        Log(KeyLoadedMsg);
      } else {
        Log(NoKeyMsg);
      }
    }

    /** "Start Processing": with an empty trimmed title, logs one error and
        keeps the old batch; otherwise replaces the batch by `numImages`
        fresh prompts, rebuilds the preview, and logs one progress line per
        prompt. */
    method StartProcessing(titleText: string, numImages: nat)
      requires Valid()
      modifies this`prompts, this`preview, this`log, this`title, this`count
      ensures Valid()
      ensures files == old(files)
      ensures Trim(titleText) == "" ==>
        && prompts == old(prompts)
        && preview == old(preview)
        && log == old(log) + [NoTitleMsg]
        && title == old(title) && count == old(count)
      ensures Trim(titleText) != "" ==>
        && title == Trim(titleText) && count == numImages
        && prompts == BuildPrompts(Trim(titleText), numImages)
        && preview == PreviewLines(BuildPrompts(Trim(titleText), numImages))
        && log == old(log) + GeneratedLines(numImages)
    {
      var t := Trim(titleText);
      if t == "" {
        Log(NoTitleMsg);
        return;
      }
      prompts := [];
      preview := [];
      ghost var log0 := log;
      var i := 0;
      while i < numImages
        invariant 0 <= i <= numImages
        invariant prompts == BuildPrompts(t, i)
        invariant preview == PreviewLines(prompts)
        invariant log == log0 + GeneratedLines(i)
      {
        BuildStep(t, i);
        var prompt := ScenePrompt(t, i + 1);
        prompts := prompts + [prompt];
        preview := preview + [PreviewLine(i + 1, prompt)];
        Log(GeneratedLine(i + 1));
        i := i + 1;
      }
      title, count := t, numImages;
    }

    /** "Export Prompts": with no prompts, logs one error and writes nothing.
        Otherwise, when a path was chosen in the save dialog (`chosenPath`,
        empty when cancelled), that file holds each prompt followed by a
        newline, in order, and the log says where it went. */
    method ExportPrompts(chosenPath: string)
      requires Valid()
      modifies this`files, this`log
      ensures Valid()
      ensures prompts == [] ==> files == old(files) && log == old(log) + [NoPromptsToExportMsg]
      ensures prompts != [] && chosenPath == "" ==> files == old(files) && log == old(log)
      ensures prompts != [] && chosenPath != "" ==>
        && files == old(files)[chosenPath := TextFile(ExportContent(prompts))]
        && log == old(log) + [ExportedPrefix + chosenPath]
      ensures prompts != [] && chosenPath != "" && '\n' !in title ==>
        && chosenPath in files && files[chosenPath].TextFile?
        && Lines(files[chosenPath].text) == prompts
    {
      if prompts == [] {
        Log(NoPromptsToExportMsg);
        return;
      }
      if chosenPath != "" {
        files := files[chosenPath := TextFile("")];
        var i := 0;
        while i < |prompts|
          invariant 0 <= i <= |prompts|
          invariant files == old(files)[chosenPath := TextFile(ExportContent(prompts[..i]))]
          invariant log == old(log)
        {
          ExportContentAppend(prompts[..i], prompts[i]);
          assert prompts[..i + 1] == prompts[..i] + [prompts[i]];
          files := files[chosenPath := TextFile(files[chosenPath].text + prompts[i] + "\n")];
          i := i + 1;
        }
        assert prompts[..i] == prompts;
        if '\n' !in title {
          BatchExportRoundTrip(title, count);
        }
        Log(ExportedPrefix + chosenPath);
      }
    }

    /** "Generate & Download": with no prompts, or with prompts but an empty
        trimmed key, logs one error and sends nothing. Otherwise goes through
        the prompts in order; for each it sends one POST and writes one log
        line, and only a complete success writes a file. `replies[j]` is what
        the outside world answered for prompt `j`. Returns the requests sent. */
    method DownloadImages(keyText: string, replies: seq<Reply>) returns (sent: seq<Request>)
      requires Valid()
      requires |replies| == |prompts|
      modifies this`files, this`log
      ensures Valid()
      ensures prompts == [] ==>
        && sent == [] && files == old(files) && log == old(log) + [GenerateFirstMsg]
      ensures prompts != [] && Trim(keyText) == "" ==>
        && sent == [] && files == old(files) && log == old(log) + [KeyMissingMsg]
      ensures prompts != [] && Trim(keyText) != "" ==>
        && sent == BatchRequests(BearerPrefix + Trim(keyText), prompts, replies)
        && files == BatchStore(old(files), replies)
        && log == old(log) + BatchLog(replies)
    {
      sent := [];
      if prompts == [] {
        Log(GenerateFirstMsg);
        return;
      }
      var apiKey := Trim(keyText);
      if apiKey == "" {
        Log(KeyMissingMsg);
        return;
      }
      var authorization := BearerPrefix + apiKey;
      var i := 1;
      while i <= |prompts|
        invariant 1 <= i <= |prompts| + 1
        invariant sent == BatchRequests(authorization, prompts[..i - 1], replies[..i - 1])
        invariant files == BatchStore(old(files), replies[..i - 1])
        invariant log == old(log) + BatchLog(replies[..i - 1])
      {
        BatchStep(old(files), authorization, prompts, replies, i);
        var itemSent := DownloadOne(i, authorization, prompts[i - 1], replies[i - 1]);
        sent := sent + itemSent;
        i := i + 1;
      }
      assert prompts[..i - 1] == prompts;
      assert replies[..i - 1] == replies;
    }

    /** One pass of the download loop, for scene `i`: send the POST; on a
        200 answer read the URL, fetch it and write the bytes to the scene's
        file; log the one line that says how it went. Anything the steps
        raise ends this item only. */
    method DownloadOne(i: nat, authorization: string, prompt: string, reply: Reply)
      returns (sent: seq<Request>)
      modifies this`files, this`log
      ensures sent == ItemRequests(authorization, prompt, reply)
      ensures files == ItemStore(old(files), i, ItemOutcome(reply))
      ensures log == old(log) + [ItemLog(i, ItemOutcome(reply))]
    {
      sent := [Post(Endpoint, authorization, prompt, ModelName)];
      match reply.post {
        case PostRaised(e) =>
          Log(ErrorPrefix + e);
        case Responded(status, text, json) =>
          if status == 200 {
            match json {
              case Malformed(e) =>
                Log(ErrorPrefix + e);
              case HasUrl(url) =>
                sent := sent + [Get(url)];
                match reply.fetch {
                  case FetchRaised(e) =>
                    Log(ErrorPrefix + e);
                  case Fetched(content) =>
                    var filename := ScenePath(i);
                    match reply.write {
                      case WriteRaised(e) =>
                        Log(ErrorPrefix + e);
                      case Written =>
                        files := files[filename := Binary(content)];
                        Log(DownloadedPrefix + filename);
                    }
                }
            }
          } else {
            Log(FailedPrefix + NatToString(i) + ": " + text);
          }
      }
    }
  }
}
