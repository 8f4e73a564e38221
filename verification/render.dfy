/** The capture driver behind the render endpoint: the method gate, the naming of
    artifacts under the mission's snapshot directory, the classification of the
    renderer's console messages into sidecar writes, frame captures and plain log
    lines, the append-only list of written paths, and the response.

    The browser, the screenshot and the file system are not modelled as such: the
    console stream is a finite sequence of messages, a screenshot is an abstract
    frame, and the snapshot directory is a map from path to content. */
module Render {
  import opened Text

  datatype Option<T> = None | Some(value: T)

  const POST: string := "POST"
  const SIDECAR_TOKEN: string := "SIDECAR_DATA"
  const CAPTURE_PREFIX: string := "CAPTURE_FRAME:"
  const COMPLETE_SENTINEL: string := "MISSION_COMPLETE"
  const RENDER_TIMEOUT: string := "Render timeout"
  const JSON_EXT: string := ".json"
  const PNG_EXT: string := ".png"
  const SIDECAR_ERROR_LOG: string := "[RENDERER] Sidecar Error:"

  // ---------------------------------------------------------------------------
  // Console messages

  /** What `jsonValue()` yields for a console argument: a string, or any other
      JSON value, identified by its serialised JSON text and carried with the
      text a template literal renders it as (`[object Object]` for every object,
      `1,2` for both `[1,2]` and `["1","2"]`). */
  datatype JsonValue = JString(s: string) | JOther(json: string, rendered: string)

  /** `${v}`: the text a value contributes to a file name. A string gives
      itself; any other value gives its rendering, never its JSON text. */
  function TemplateText(v: JsonValue): (t: string)
    ensures v.JString? ==> t == v.s
    ensures v.JOther? ==> t == v.rendered
  {
    match v
    case JString(s) => s
    case JOther(_, r) => r
  }

  /** A console argument; `json` is None when its `jsonValue()` rejects. */
  datatype ConsoleArg = ConsoleArg(json: Option<JsonValue>)

  /** A console message of the page: its arguments and its text. */
  datatype ConsoleMessage = ConsoleMessage(args: seq<ConsoleArg>, text: string)

  /** A screenshot of the page: the frame shown when the i-th message arrived. */
  datatype Image = Frame(index: nat)

  /** What a written file holds: the JSON text of a sidecar payload, or a PNG. */
  datatype Content = SidecarJson(data: JsonValue) | Png(image: Image)

  /** The outcome of the sidecar branch of the console handler: not a sidecar
      (fewer than three arguments, or a first argument other than the token),
      a sidecar read in full, or a sidecar whose arguments could not be read. */
  datatype SidecarAttempt = NotSidecar | SidecarRead(view: string, data: JsonValue) | SidecarThrew

  /** What one console message asks the driver to do. */
  datatype Signal = Sidecar(view: string, data: JsonValue) | CaptureFrame(view: string) | Plain(text: string)

  /** The sidecar branch: the first argument is read only when there are at least
      three; the view name and payload only when the token matches. A rejection
      of any of these reads is caught. */
  function ReadSidecar(msg: ConsoleMessage): (a: SidecarAttempt)
    ensures |msg.args| < 3 ==> a.NotSidecar?
    ensures a.SidecarRead? <==>
      |msg.args| >= 3 && msg.args[0].json == Some(JString(SIDECAR_TOKEN)) &&
      msg.args[1].json.Some? && msg.args[2].json.Some?
    ensures a.SidecarRead? ==>
      a.view == TemplateText(msg.args[1].json.value) && a.data == msg.args[2].json.value
    ensures a.SidecarThrew? <==>
      |msg.args| >= 3 && (msg.args[0].json.None? ||
        (msg.args[0].json == Some(JString(SIDECAR_TOKEN)) && (msg.args[1].json.None? || msg.args[2].json.None?)))
  {
    if |msg.args| < 3 then NotSidecar
    else match msg.args[0].json
      case None => SidecarThrew
      case Some(token) =>
        if token != JString(SIDECAR_TOKEN) then NotSidecar
        else match msg.args[1].json
          case None => SidecarThrew
          case Some(view) =>
            match msg.args[2].json
            case None => SidecarThrew
            case Some(data) => SidecarRead(TemplateText(view), data)
  }

  /** `name` is the field of `text` between the first and the second ':' (or the
      end of the text), for a text that starts with the capture prefix. */
  predicate IsShotField(text: string, name: string) {
    StartsWith(text, CAPTURE_PREFIX + name) &&
    ':' !in name &&
    (|text| == |CAPTURE_PREFIX + name| || text[|CAPTURE_PREFIX + name|] == ':')
  }

  /** `text.split(':')[1]` for a capture text: the shot name. */
  function ShotName(text: string): (name: string)
    requires StartsWith(text, CAPTURE_PREFIX)
    ensures IsShotField(text, name)
  {
    var rest := text[|CAPTURE_PREFIX|..];
    assert text == "CAPTURE_FRAME" + [':'] + rest;
    SplitAfterField("CAPTURE_FRAME", ':', rest);
    SplitHead(rest, ':');
    var name := Split(text, ':')[1];
    assert name == Split(rest, ':')[0];
    assert text[..|CAPTURE_PREFIX + name|] == CAPTURE_PREFIX + rest[..|name|];
    name
  }

  /** The shot field is unique: at most one name fits a capture text. */
  lemma {:induction false} ShotFieldUnique(text: string, a: string, b: string)
    requires IsShotField(text, a) && IsShotField(text, b)
    ensures a == b
  {
    if |a| == |b| {
      var n := |CAPTURE_PREFIX|;
      assert a == text[n..n + |a|] == b;
    }
  }

  /** How the console handler classifies a message. A complete sidecar wins;
      otherwise a text with the capture prefix is a frame capture; otherwise the
      message is only logged. */
  function Classify(msg: ConsoleMessage): (sig: Signal)
    ensures sig.Sidecar? <==>
      |msg.args| >= 3 && msg.args[0].json == Some(JString(SIDECAR_TOKEN)) &&
      msg.args[1].json.Some? && msg.args[2].json.Some?
    ensures sig.Sidecar? ==>
      sig.view == TemplateText(msg.args[1].json.value) && sig.data == msg.args[2].json.value
    ensures sig.CaptureFrame? <==> !sig.Sidecar? && StartsWith(msg.text, CAPTURE_PREFIX)
    ensures sig.CaptureFrame? ==> IsShotField(msg.text, sig.view)
    ensures sig.Plain? ==> sig.text == msg.text
  {
    match ReadSidecar(msg)
    case SidecarRead(view, data) => Sidecar(view, data)
    case _ =>
      if StartsWith(msg.text, CAPTURE_PREFIX) then CaptureFrame(ShotName(msg.text))
      else Plain(msg.text)
  }

  /** The completion listener's test: the text is exactly the sentinel. Such a
      text does not start with the capture prefix, so a completion never
      captures a frame. */
  predicate IsComplete(msg: ConsoleMessage)
    ensures IsComplete(msg) ==> !StartsWith(msg.text, CAPTURE_PREFIX)
  {
    assert COMPLETE_SENTINEL[..|CAPTURE_PREFIX|][0] != CAPTURE_PREFIX[0];
    msg.text == COMPLETE_SENTINEL
  }

  // ---------------------------------------------------------------------------
  // Artifact naming

  /** `path.join(a, b)`, without normalisation: `a`, then one separator, then
      `b`, each kept as it is. */
  function PathJoin(a: string, b: string): (p: string)
    ensures |p| == |a| + 1 + |b|
  {
    a + "/" + b
  }

  /** The join can be read back: `a`, the separator and `b` sit at fixed places. */
  lemma PathJoinParts(a: string, b: string)
    ensures var p := PathJoin(a, b);
      p[..|a|] == a && p[|a|] == '/' && p[|a| + 1..] == b
  {
  }

  /** `<cwd>/public/snapshots/<order_id>/<customer_id>`. */
  function SnapshotDir(cwd: string, orderId: string, customerId: string): (dir: string)
    ensures dir == cwd + "/public/snapshots/" + orderId + "/" + customerId
  {
    PathJoin(PathJoin(PathJoin(PathJoin(cwd, "public"), "snapshots"), orderId), customerId)
  }

  /** `<dir>/<view><ext>`: the path ends with the extension, after the name. */
  function ArtifactPath(dir: string, view: string, ext: string): (p: string)
    ensures |p| == |dir| + 1 + |view| + |ext|
  {
    PathJoin(dir, view + ext)
  }

  /** `path` lies inside directory `dir`. */
  predicate Under(path: string, dir: string) {
    StartsWith(path, dir + "/")
  }

  /** An artifact lies in its directory. */
  lemma ArtifactUnder(dir: string, view: string, ext: string)
    ensures Under(ArtifactPath(dir, view, ext), dir)
  {
    assert ArtifactPath(dir, view, ext) == (dir + "/") + (view + ext);
  }

  /** Every artifact of a mission lies under public/snapshots/<order_id>/<customer_id>/,
      and the rest of its path is the view name and extension. */
  lemma ArtifactInMissionDir(cwd: string, orderId: string, customerId: string, view: string, ext: string)
    ensures var p := ArtifactPath(SnapshotDir(cwd, orderId, customerId), view, ext);
      var d := cwd + "/public/snapshots/" + orderId + "/" + customerId;
      Under(p, d) && p[|d| + 1..] == view + ext
  {
  }

  /** Within one directory, a (view, extension) pair names exactly one path: the
      same shot name always gives the same file (a re-send overwrites it), and a
      sidecar and an image never share a path. */
  lemma ArtifactPathInjective(dir: string, v1: string, e1: string, v2: string, e2: string)
    requires e1 in {JSON_EXT, PNG_EXT} && e2 in {JSON_EXT, PNG_EXT}
    ensures ArtifactPath(dir, v1, e1) == ArtifactPath(dir, v2, e2) <==> v1 == v2 && e1 == e2
  {
    if ArtifactPath(dir, v1, e1) == ArtifactPath(dir, v2, e2) {
      var s1, s2 := v1 + e1, v2 + e2;
      assert s1 == ArtifactPath(dir, v1, e1)[|dir| + 1..];
      assert s2 == ArtifactPath(dir, v2, e2)[|dir| + 1..];
      assert s1 == s2;
      assert s1[|s1| - 1] == e1[|e1| - 1] && s2[|s2| - 1] == e2[|e2| - 1];
      assert e1 == e2;
      assert v1 == s1[..|v1|] == s2[..|v2|] == v2;
    }
  }

  /** The file a signal writes, if any. */
  function Target(dir: string, sig: Signal): (path: Option<string>)
    ensures path.Some? <==> !sig.Plain?
  {
    match sig
    case Sidecar(view, _) => Some(ArtifactPath(dir, view, JSON_EXT))
    case CaptureFrame(view) => Some(ArtifactPath(dir, view, PNG_EXT))
    case Plain(_) => None
  }

  /** What a writing signal puts in its file; `screen` is the page as shot. */
  function ContentFor(sig: Signal, screen: Image): (c: Content)
    requires !sig.Plain?
    ensures c.SidecarJson? <==> sig.Sidecar?
    ensures c.SidecarJson? ==> c.data == sig.data
    ensures c.Png? ==> c.image == screen
  {
    if sig.Sidecar? then SidecarJson(sig.data) else Png(screen)
  }

  /** The paths one message appends to the results list: the file it writes,
      if any. Only a message that is merely logged appends nothing. */
  function Written(dir: string, msg: ConsoleMessage): (paths: seq<string>)
    ensures |paths| <= 1
    ensures paths == [] <==> Classify(msg).Plain?
  {
    match Target(dir, Classify(msg))
    case None => []
    case Some(p) => [p]
  }

  /** The directory after one message: its file written (or overwritten), if any. */
  function StoreArtifact(files: map<string, Content>, dir: string, msg: ConsoleMessage, screen: Image): (r: map<string, Content>)
    ensures Classify(msg).Plain? ==> r == files
    ensures files.Keys <= r.Keys
  {
    match Target(dir, Classify(msg))
    case None => files
    case Some(p) => files[p := ContentFor(Classify(msg), screen)]
  }

  /** The files one message adds are exactly the paths it lists. */
  lemma StoreArtifactKeys(files: map<string, Content>, dir: string, msg: ConsoleMessage, screen: Image)
    ensures StoreArtifact(files, dir, msg, screen).Keys == files.Keys + set p | p in Written(dir, msg)
  {
  }

  /** The file a message lists holds the sidecar data or the screenshot, and
      every other file is left as it was. */
  lemma StoreArtifactContents(files: map<string, Content>, dir: string, msg: ConsoleMessage, screen: Image)
    ensures var r := StoreArtifact(files, dir, msg, screen);
      (forall p :: p in Written(dir, msg) ==> r[p] == ContentFor(Classify(msg), screen)) &&
      (forall p :: p in files && p !in Written(dir, msg) ==> r[p] == files[p])
  {
  }

  /** Re-sending a shot of the same kind and name writes the same file again: the
      directory gains no new key, and the file holds what the last message wrote. */
  lemma ResendOverwrites(files: map<string, Content>, dir: string, m1: ConsoleMessage, m2: ConsoleMessage, s1: Image, s2: Image)
    requires !Classify(m1).Plain? && !Classify(m2).Plain?
    requires Classify(m1).Sidecar? == Classify(m2).Sidecar? && Classify(m1).view == Classify(m2).view
    ensures var once := StoreArtifact(files, dir, m1, s1);
      var twice := StoreArtifact(once, dir, m2, s2);
      twice.Keys == once.Keys && twice == StoreArtifact(files, dir, m2, s2)
  {
  }

  /** The lines the console handler logs for one message: one, after a caught
      sidecar read error when there was one. */
  function LogLines(dir: string, msg: ConsoleMessage): (lines: seq<string>)
    ensures |lines| == if ReadSidecar(msg).SidecarThrew? then 2 else 1
  {
    var caught := if ReadSidecar(msg).SidecarThrew? then [SIDECAR_ERROR_LOG] else [];
    match Classify(msg)
    case Sidecar(view, _) => ["[RENDERER] Saved Sidecar: " + ArtifactPath(dir, view, JSON_EXT)]
    case CaptureFrame(view) => caught + ["[RENDERER] Captured: " + ArtifactPath(dir, view, PNG_EXT)]
    case Plain(text) => caught + ["[BROWSER] " + text]
  }

  /** The paths a stream of messages appends to the results list, in order. */
  function PathsWritten(dir: string, msgs: seq<ConsoleMessage>): (paths: seq<string>)
    ensures |paths| <= |msgs|
    decreases |msgs|
  {
    if msgs == [] then [] else Written(dir, msgs[0]) + PathsWritten(dir, msgs[1..])
  }

  /** The paths a stream writes are those of its first part followed by those of
      its second: the results list is append-only, whatever comes later. */
  lemma {:induction false} PathsWrittenConcat(dir: string, a: seq<ConsoleMessage>, b: seq<ConsoleMessage>)
    ensures PathsWritten(dir, a + b) == PathsWritten(dir, a) + PathsWritten(dir, b)
    decreases |a|
  {
    if a == [] {
      assert a + b == b;
    } else {
      PathsWrittenConcat(dir, a[1..], b);
      assert (a + b)[0] == a[0] && (a + b)[1..] == a[1..] + b;
      AppendAssoc(Written(dir, a[0]), PathsWritten(dir, a[1..]), PathsWritten(dir, b));
    }
  }

  /** One more message appends at most one path, the one it writes, to whatever
      list the earlier messages were appended to. */
  lemma PathsWrittenStep(dir: string, start: seq<string>, msgs: seq<ConsoleMessage>, m: ConsoleMessage)
    ensures start + PathsWritten(dir, msgs + [m]) == (start + PathsWritten(dir, msgs)) + Written(dir, m)
  {
    PathsWrittenConcat(dir, msgs, [m]);
    assert PathsWritten(dir, [m]) == Written(dir, m) + PathsWritten(dir, [m][1..]);
    assert PathsWritten(dir, [m]) == Written(dir, m);
    AppendAssoc(start, PathsWritten(dir, msgs), Written(dir, m));
  }

  /** Appending is associative (stated once so that the list proofs need not
      rediscover it). */
  lemma AppendAssoc<T>(a: seq<T>, b: seq<T>, c: seq<T>)
    ensures (a + b) + c == a + (b + c)
  {
  }

  /** Every path a stream writes lies in the snapshot directory. */
  lemma {:induction false} PathsWrittenUnder(dir: string, msgs: seq<ConsoleMessage>)
    ensures forall p :: p in PathsWritten(dir, msgs) ==> Under(p, dir)
    decreases |msgs|
  {
    if msgs != [] {
      PathsWrittenUnder(dir, msgs[1..]);
      var sig := Classify(msgs[0]);
      if !sig.Plain? {
        var e := if sig.Sidecar? then JSON_EXT else PNG_EXT;
        assert Written(dir, msgs[0]) == [ArtifactPath(dir, sig.view, e)];
        ArtifactUnder(dir, sig.view, e);
      }
    }
  }

  /** Messages that are only logged write nothing. */
  lemma {:induction false} PlainStreamWritesNothing(dir: string, msgs: seq<ConsoleMessage>)
    requires forall i :: 0 <= i < |msgs| ==> Classify(msgs[i]).Plain?
    ensures PathsWritten(dir, msgs) == []
    decreases |msgs|
  {
    if msgs != [] {
      PlainStreamWritesNothing(dir, msgs[1..]);
    }
  }

  /** What the console listeners have produced: the listed paths, the files of
      the snapshot directory and the host log. */
  datatype Output = Output(paths: seq<string>, files: map<string, Content>, log: seq<string>)

  /** The capture listener's effect on the output for one message, the page
      shown as `screen`: its path listed, its file written and its lines logged.
      Only a plain line lists nothing; every message logs one or two lines. */
  function Capture(out: Output, dir: string, msg: ConsoleMessage, screen: Image): (r: Output)
    ensures r.paths == out.paths <==> Classify(msg).Plain?
    ensures |out.paths| <= |r.paths| <= |out.paths| + 1 && |out.log| + 1 <= |r.log| <= |out.log| + 2
    ensures out.files.Keys <= r.files.Keys
  {
    Output(out.paths + Written(dir, msg), StoreArtifact(out.files, dir, msg, screen), out.log + LogLines(dir, msg))
  }

  /** The capture listener over a stream of messages, the i-th shown as frame
      `firstFrame + i`: each file is written in turn, so the last write to a path
      wins and no file is ever removed; each message logs one or two lines. */
  function CaptureAll(out: Output, dir: string, msgs: seq<ConsoleMessage>, firstFrame: nat): (r: Output)
    ensures out.files.Keys <= r.files.Keys
    ensures |out.log| + |msgs| <= |r.log| <= |out.log| + 2 * |msgs|
    decreases |msgs|
  {
    if msgs == [] then out
    else CaptureAll(Capture(out, dir, msgs[0], Frame(firstFrame)), dir, msgs[1..], firstFrame + 1)
  }

  /** The paths a captured stream lists are those of PathsWritten, after the
      earlier ones. */
  lemma {:induction false} CaptureAllPaths(out: Output, dir: string, msgs: seq<ConsoleMessage>, firstFrame: nat)
    ensures CaptureAll(out, dir, msgs, firstFrame).paths == out.paths + PathsWritten(dir, msgs)
    decreases |msgs|
  {
    if msgs != [] {
      var next := Capture(out, dir, msgs[0], Frame(firstFrame));
      CaptureAllPaths(next, dir, msgs[1..], firstFrame + 1);
      AppendAssoc(out.paths, Written(dir, msgs[0]), PathsWritten(dir, msgs[1..]));
    }
  }

  /** The files a captured stream leaves are the earlier ones plus exactly the
      paths it lists: a re-sent shot adds no new file. */
  lemma {:induction false} CaptureAllKeys(out: Output, dir: string, msgs: seq<ConsoleMessage>, firstFrame: nat)
    ensures CaptureAll(out, dir, msgs, firstFrame).files.Keys == out.files.Keys + set p | p in PathsWritten(dir, msgs)
    decreases |msgs|
  {
    if msgs != [] {
      var next := Capture(out, dir, msgs[0], Frame(firstFrame));
      CaptureAllKeys(next, dir, msgs[1..], firstFrame + 1);
      StoreArtifactKeys(out.files, dir, msgs[0], Frame(firstFrame));
      var a, b := Written(dir, msgs[0]), PathsWritten(dir, msgs[1..]);
      assert (set p | p in a + b) == (set p | p in a) + (set p | p in b);
    }
  }

  /** The position of the first completion message, if there is one. */
  function FirstCompletion(msgs: seq<ConsoleMessage>): (k: Option<nat>)
    ensures k.Some? ==>
      k.value < |msgs| && IsComplete(msgs[k.value]) &&
      forall i :: 0 <= i < k.value ==> !IsComplete(msgs[i])
    ensures k.None? ==> forall i :: 0 <= i < |msgs| ==> !IsComplete(msgs[i])
    decreases |msgs|
  {
    if msgs == [] then None
    else if IsComplete(msgs[0]) then Some(0)
    else match FirstCompletion(msgs[1..])
      case None => None
      case Some(j) => Some(j + 1)
  }

  /** How many messages after loading the handler waits through: up to and
      including the first completion, or all of them when the render times out. */
  function Consumed(msgs: seq<ConsoleMessage>): (n: nat)
    ensures n <= |msgs|
    ensures forall i :: 0 <= i < n - 1 ==> !IsComplete(msgs[i])
    ensures n < |msgs| ==> 0 < n && IsComplete(msgs[n - 1])
  {
    match FirstCompletion(msgs)
    case None => |msgs|
    case Some(k) => k + 1
  }

  // ---------------------------------------------------------------------------
  // The capture session: the console handler's state

  /** The state the console listeners update: the snapshot directory's files,
      the list of written paths, the host log and whether completion was seen. */
  class CaptureSession {
    const snapshotDir: string
    var imagePaths: seq<string>
    var files: map<string, Content>
    var log: seq<string>
    var completed: bool

    /** What the listeners have produced so far. */
    ghost function Produced(): Output
      reads this
    {
      Output(imagePaths, files, log)
    }

    constructor (dir: string)
      ensures snapshotDir == dir && imagePaths == [] && files == map[] && log == [] && !completed
    {
      snapshotDir := dir;
      imagePaths := [];
      files := map[];
      log := [];
      completed := false;
    }

    /** The capture listener: handle one console message. A sidecar writes its
        JSON file and stops; otherwise a capture text writes a screenshot; any
        other message is only logged. */
    method HandleMessage(msg: ConsoleMessage, screen: Image)
      modifies this
      ensures completed == old(completed)
      ensures Produced() == Capture(old(Produced()), snapshotDir, msg, screen)
    {
      var attempt := ReadSidecar(msg);
      if attempt.SidecarRead? {
        assert Classify(msg) == Sidecar(attempt.view, attempt.data);
        var path := ArtifactPath(snapshotDir, attempt.view, JSON_EXT);
        files := files[path := SidecarJson(attempt.data)];
        imagePaths := imagePaths + [path];
        log := log + ["[RENDERER] Saved Sidecar: " + path];
        return;
      }
      if attempt.SidecarThrew? {
        log := log + [SIDECAR_ERROR_LOG];
      }
      var text := msg.text;
      if StartsWith(text, CAPTURE_PREFIX) {
        assert Classify(msg) == CaptureFrame(ShotName(text));
        var path := ArtifactPath(snapshotDir, ShotName(text), PNG_EXT);
        files := files[path := Png(screen)];
        imagePaths := imagePaths + [path];
        log := log + ["[RENDERER] Captured: " + path];
      } else {
        assert Classify(msg) == Plain(text);
        log := log + ["[BROWSER] " + text];
      }
    }

    /** The capture listener over the messages logged while the page loads;
        `firstFrame` numbers the frames shown meanwhile. */
    method ListenWhileLoading(msgs: seq<ConsoleMessage>, firstFrame: nat)
      modifies this
      decreases |msgs|
      ensures completed == old(completed)
      ensures Produced() == CaptureAll(old(Produced()), snapshotDir, msgs, firstFrame)
      ensures imagePaths == old(imagePaths) + PathsWritten(snapshotDir, msgs)
    {
      if msgs != [] {
        HandleMessage(msgs[0], Frame(firstFrame));
        ListenWhileLoading(msgs[1..], firstFrame + 1);
      }
      CaptureAllPaths(old(Produced()), snapshotDir, msgs, firstFrame);
    }

    /** Wait for completion: both listeners see each message after loading, until
        the completion listener resolves or the messages run out (the render
        timeout). */
    method AwaitCompletion(msgs: seq<ConsoleMessage>, firstFrame: nat)
      requires !completed
      modifies this
      decreases |msgs|
      ensures completed <==> FirstCompletion(msgs).Some?
      ensures Produced() == CaptureAll(old(Produced()), snapshotDir, msgs[..Consumed(msgs)], firstFrame)
      ensures imagePaths == old(imagePaths) + PathsWritten(snapshotDir, msgs[..Consumed(msgs)])
    {
      if msgs != [] {
        Dispatch(msgs[0], Frame(firstFrame));
        if completed {
          assert msgs[..Consumed(msgs)][1..] == [];
        } else {
          AwaitCompletion(msgs[1..], firstFrame + 1);
          assert msgs[..Consumed(msgs)][1..] == msgs[1..][..Consumed(msgs[1..])];
        }
      }
      CaptureAllPaths(old(Produced()), snapshotDir, msgs[..Consumed(msgs)], firstFrame);
    }

    /** One console event after loading, seen by the capture listener and then
        by the completion listener. */
    method Dispatch(msg: ConsoleMessage, screen: Image)
      modifies this
      ensures completed == (old(completed) || IsComplete(msg))
      ensures Produced() == Capture(old(Produced()), snapshotDir, msg, screen)
    {
      HandleMessage(msg, screen);
      ObserveCompletion(msg);
    }

    /** The completion listener: resolve on the exact sentinel text. */
    method ObserveCompletion(msg: ConsoleMessage)
      modifies this`completed
      ensures completed == (old(completed) || IsComplete(msg))
    {
      if msg.text == COMPLETE_SENTINEL {
        completed := true;
      }
    }
  }

  // ---------------------------------------------------------------------------
  // The request handler

  /** The request: its HTTP method and the two ids of the body, each None when it
      is not a string (missing, or of another type). */
  datatype Request = Request(httpMethod: string, customerId: Option<string>, orderId: Option<string>)

  /** Whether the browser starts. */
  datatype Launch = Launched | LaunchFailed(message: string)

  /** Whether the page is set up and navigation settles within its 60 s bound. */
  datatype PageLoad = Loaded | PageFailed(message: string)

  /** What the browser does for one mission: the console messages logged while
      the page loads (seen by the capture listener only), how loading ends, and
      the messages logged after it, up to the 120 s render timeout (seen by both
      listeners). */
  datatype Environment = Environment(
    launch: Launch,
    duringLoad: seq<ConsoleMessage>,
    page: PageLoad,
    afterLoad: seq<ConsoleMessage>)

  /** The response. MethodNotAllowed is 405 `{error:'Method not allowed'}`;
      Success is 200 `{status:"success", customer_id, order_id, images}`; Failure
      is 500 `{status:"error", message}`; Unhandled is an exception that escaped
      the handler before its try block, answered by the framework. */
  datatype Response =
    | MethodNotAllowed
    | Success(customerId: string, orderId: string, images: seq<string>)
    | Failure(message: string)
    | Unhandled

  /** The HTTP status of a response. */
  function Status(r: Response): (code: int)
    ensures code == 200 <==> r.Success?
    ensures code == 405 <==> r.MethodNotAllowed?
    ensures !r.Success? && !r.MethodNotAllowed? ==> code == 500
  {
    match r
    case MethodNotAllowed => 405
    case Success(_, _, _) => 200
    case _ => 500
  }

  /** Whether the handler gets as far as starting a browser. */
  predicate BrowserLaunched(req: Request, env: Environment) {
    req.httpMethod == POST && req.customerId.Some? && req.orderId.Some? && env.launch.Launched?
  }

  /** The outcome of the handler's try block for a mission whose artifacts go to
      `dir`: a launch or page failure is reported with its message; otherwise the
      mission succeeds on the first completion message after loading, listing every
      path written by the messages up to and including it, or the render times out. */
  function MissionOutcome(customerId: string, orderId: string, dir: string, env: Environment): (r: Response)
    ensures r.Success? || r.Failure?
    ensures r.Success? ==>
      r.customerId == customerId && r.orderId == orderId &&
      env.launch.Launched? && env.page.Loaded? && FirstCompletion(env.afterLoad).Some?
    ensures env.launch.LaunchFailed? ==> r == Failure(env.launch.message)
    ensures env.launch.Launched? && env.page.PageFailed? ==> r == Failure(env.page.message)
    ensures env.launch.Launched? && env.page.Loaded? && FirstCompletion(env.afterLoad).None? ==>
      r == Failure(RENDER_TIMEOUT)
  {
    match env.launch
    case LaunchFailed(m) => Failure(m)
    case Launched =>
      match env.page
      case PageFailed(m) => Failure(m)
      case Loaded =>
        match FirstCompletion(env.afterLoad)
        case None => Failure(RENDER_TIMEOUT)
        case Some(k) => Success(customerId, orderId, PathsWritten(dir, env.duringLoad + env.afterLoad[..k + 1]))
  }

  /** The response the handler gives: the method gate, then the ids are needed to
      name the snapshot directory, then the try block. */
  function Respond(req: Request, cwd: string, env: Environment): (r: Response)
    ensures r.MethodNotAllowed? <==> req.httpMethod != POST
    ensures r.Unhandled? <==> req.httpMethod == POST && (req.customerId.None? || req.orderId.None?)
  {
    if req.httpMethod != POST then MethodNotAllowed
    else if req.customerId.None? || req.orderId.None? then Unhandled
    else
      var customerId, orderId := req.customerId.value, req.orderId.value;
      MissionOutcome(customerId, orderId, SnapshotDir(cwd, orderId, customerId), env)
  }

  /** What a response promises: only POST gets past the gate; success echoes the
      request's ids, needs a launched browser, a loaded page and a completion
      message after loading, and lists at most one path per message, each in
      the mission's snapshot directory; a launched, loaded mission that sees no
      completion fails with the render timeout. */
  lemma RespondShape(req: Request, cwd: string, env: Environment)
    ensures var r := Respond(req, cwd, env);
      (req.httpMethod != POST <==> r.MethodNotAllowed?) &&
      (r.Success? ==>
        BrowserLaunched(req, env) && env.page.Loaded? &&
        req.customerId == Some(r.customerId) && req.orderId == Some(r.orderId) &&
        (exists k :: 0 <= k < |env.afterLoad| && IsComplete(env.afterLoad[k])) &&
        |r.images| <= |env.duringLoad| + |env.afterLoad| &&
        forall p :: p in r.images ==> Under(p, SnapshotDir(cwd, r.orderId, r.customerId))) &&
      (BrowserLaunched(req, env) && env.page.Loaded? ==>
        r.Success? || (r == Failure(RENDER_TIMEOUT) &&
                       forall k :: 0 <= k < |env.afterLoad| ==> !IsComplete(env.afterLoad[k])))
  {
    var r := Respond(req, cwd, env);
    if r.Success? {
      var k := FirstCompletion(env.afterLoad).value;
      PathsWrittenUnder(SnapshotDir(cwd, r.orderId, r.customerId), env.duringLoad + env.afterLoad[..k + 1]);
    }
  }

  /** The images of a successful response are the first entries of everything the
      mission writes, later messages included: the list only grows. */
  lemma SuccessImagesArePrefix(req: Request, cwd: string, env: Environment)
    requires Respond(req, cwd, env).Success?
    ensures var r := Respond(req, cwd, env);
      var all := PathsWritten(SnapshotDir(cwd, r.orderId, r.customerId), env.duringLoad + env.afterLoad);
      |r.images| <= |all| && all[..|r.images|] == r.images
  {
    var r := Respond(req, cwd, env);
    var dir := SnapshotDir(cwd, r.orderId, r.customerId);
    var k := FirstCompletion(env.afterLoad).value;
    var a := env.duringLoad + env.afterLoad[..k + 1];
    var b := env.afterLoad[k + 1..];
    assert a + b == env.duringLoad + env.afterLoad;
    PathsWrittenConcat(dir, a, b);
  }

  /** Messages after the first completion do not change the response. */
  lemma LaterMessagesIgnored(req: Request, cwd: string, env: Environment, extra: seq<ConsoleMessage>)
    requires Respond(req, cwd, env).Success?
    ensures Respond(req, cwd, env.(afterLoad := env.afterLoad + extra)) == Respond(req, cwd, env)
  {
    var after := env.afterLoad + extra;
    var k := FirstCompletion(env.afterLoad).value;
    assert after[..k + 1] == env.afterLoad[..k + 1];
  }

  /** The handler's try block: launch the browser, let the capture listener see
      the messages logged while the page loads, then wait for completion. The
      browser, once launched, is closed on every path. */
  method RunMission(customerId: string, orderId: string, dir: string, env: Environment)
    returns (resp: Response, launched: bool, closed: bool)
    ensures resp == MissionOutcome(customerId, orderId, dir, env)
    ensures launched == env.launch.Launched?
    ensures closed == launched
  {
    if env.launch.LaunchFailed? {
      return Failure(env.launch.message), false, false;
    }
    launched := true;
    var session := new CaptureSession(dir);
    session.ListenWhileLoading(env.duringLoad, 0);
    ghost var loaded := session.imagePaths;
    assert loaded == PathsWritten(dir, env.duringLoad);
    if env.page.PageFailed? {
      resp := Failure(env.page.message);
    } else {
      session.AwaitCompletion(env.afterLoad, |env.duringLoad|);
      if session.completed {
        var k := FirstCompletion(env.afterLoad).value;
        assert Consumed(env.afterLoad) == k + 1;
        PathsWrittenConcat(dir, env.duringLoad, env.afterLoad[..k + 1]);
        assert session.imagePaths == PathsWritten(dir, env.duringLoad + env.afterLoad[..k + 1]);
        resp := Success(customerId, orderId, session.imagePaths);
      } else {
        resp := Failure(RENDER_TIMEOUT);
      }
    }
    closed := true;
  }

  /** The handler. Non-POST requests are rejected before anything else; the ids
      name the snapshot directory (an id that is not a string makes the naming
      throw before the try block); then the mission runs. */
  method Handle(req: Request, cwd: string, env: Environment)
    returns (resp: Response, launched: bool, closed: bool)
    ensures resp == Respond(req, cwd, env)
    ensures launched == BrowserLaunched(req, env)
    ensures closed == launched
  {
    if req.httpMethod != POST {
      return MethodNotAllowed, false, false;
    }
    if req.customerId.None? || req.orderId.None? {
      return Unhandled, false, false;
    }
    var customerId, orderId := req.customerId.value, req.orderId.value;
    var dir := SnapshotDir(cwd, orderId, customerId);
    resp, launched, closed := RunMission(customerId, orderId, dir, env);
  }
}
