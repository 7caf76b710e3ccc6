/**
 The trailing attachment marker of a message, and the split of attachments into native media
 blocks and path text. What the file system and the MIME tables say is a parameter.
 */
module MediaMarker {
  import opened Common
  import opened Text

  const MARKER := "[[AION_FILES]]"

  const MAX_MEDIA_BLOCK_BYTES: nat := 5 * 1024 * 1024

  // ---------------------------------------------------------------- print and parse

  /** The lines of a marker block. */
  function Block(mark: string, paths: seq<string>): string { mark + "\n" + JoinLines(paths) }

  /** The marker block listing `paths` after `content`. */
  function AppendFilesMarker(content: string, paths: seq<string>): string {
    if paths == [] then content else content + "\n\n" + Block(MARKER, paths)
  }

  /** Drops the trailing marker block if it lists exactly `files`. */
  function StripFilesMarker(content: string, files: seq<string>): string {
    match RSplitOnce(content, MARKER)
    case None => content
    case Some((userText, metadata)) =>
      if TrimmedLines(Lines(metadata)) == files then StripSuffix(userText, "\n\n") else content
  }

  function ContentWithAllPaths(content: string, files: seq<string>): string {
    AppendFilesMarker(StripFilesMarker(content, files), files)
  }

  /** A path the block can list: one plain line without the marker in it. */
  ghost predicate IsPrintable(path: string) { IsPlainLine(path) && !Contains(path, MARKER) }

  ghost predicate AllPrintable(files: seq<string>) {
    forall i :: 0 <= i < |files| ==> IsPrintable(files[i])
  }

  /** A marker stays on one line. */
  predicate IsMark(mark: string) { mark != "" && '\n' !in mark }

  lemma MarkerIsMark()
    ensures IsMark(MARKER)
  {
  }

  /** No marker starts right after one began: it would reach over the end of the line. */
  lemma MarkDoesNotOverlap(mark: string, rest: string, k: nat)
    requires IsMark(mark) && 0 < k <= |mark|
    ensures !OccursAt(mark + "\n" + rest, mark, k)
  {
    var s := mark + "\n" + rest;
    OccursPointwise(s, mark, k);
    assert mark[|mark| - k] in mark;
    assert s[k + (|mark| - k)] == '\n';
  }

  /** A marker behind the printed one is a marker in the printed paths. */
  lemma LaterMarkIsInPaths(mark: string, paths: seq<string>, k: nat)
    requires IsMark(mark) && k > 0 && OccursAt(Block(mark, paths), mark, k)
    ensures exists i :: 0 <= i < |paths| && Contains(paths[i], mark)
  {
    var n, rest := |mark| + 1, JoinLines(paths);
    if k < n {
      MarkDoesNotOverlap(mark, rest, k);
    } else {
      assert Block(mark, paths)[n..] == rest;
      OccursInSuffix(Block(mark, paths), mark, n, k - n);
      if forall i :: 0 <= i < |paths| ==> !Contains(paths[i], mark) { JoinIsFree(paths, mark, k - n); }
    }
  }

  /** And a marker in a path is one behind the printed one. */
  lemma MarkInPathIsLater(mark: string, paths: seq<string>, i: nat) returns (k: nat)
    requires i < |paths| && Contains(paths[i], mark)
    ensures k > 0 && OccursAt(Block(mark, paths), mark, k)
  {
    var n, rest := |mark| + 1, JoinLines(paths);
    JoinContains(paths, mark, i);
    var j :| 0 <= j <= |rest| && OccursAt(rest, mark, j);
    assert Block(mark, paths)[n..] == rest;
    OccursInSuffix(Block(mark, paths), mark, n, j);
    k := n + j;
  }

  ghost predicate MarkFree(mark: string, paths: seq<string>) {
    forall i :: 0 <= i < |paths| ==> !Contains(paths[i], mark)
  }

  /** In a printed message the last marker is the printed one, exactly when no path holds a marker. */
  lemma LastMark(c: string, mark: string, paths: seq<string>)
    requires IsMark(mark)
    ensures var s := c + Block(mark, paths);
            && LastOccurrence(s, mark, |s|).Some?
            && LastOccurrence(s, mark, |s|).value >= |c|
            && (LastOccurrence(s, mark, |s|).value == |c| <==> MarkFree(mark, paths))
  {
    var s, n, tail := c + Block(mark, paths), |c|, Block(mark, paths);
    assert s[n..] == tail && tail[0..|mark|] == mark;
    OccursInSuffix(s, mark, n, 0);
    var last := LastOccurrence(s, mark, |s|).value;
    OccursInSuffix(s, mark, n, last - n);
    if last > n {
      LaterMarkIsInPaths(mark, paths, last - n);
    } else if !MarkFree(mark, paths) {
      var i :| 0 <= i < |paths| && Contains(paths[i], mark);
      var k := MarkInPathIsLater(mark, paths, i);
      OccursInSuffix(s, mark, n, k);
    }
  }

  /** The block's lines read back as the printed paths, exactly when these are plain lines. */
  lemma BlockReadsBack(files: seq<string>)
    requires files != []
    ensures TrimmedLines(Lines("\n" + JoinLines(files))) == files
            <==> forall i :: 0 <= i < |files| ==> IsPlainLine(files[i])
  {
    var block := "\n" + JoinLines(files);
    FirstNewlineAt(block, 0);
    assert block[..0] == "" && block[1..] == JoinLines(files);
    var lines := Lines(block);
    assert lines == [""] + Lines(JoinLines(files));
    assert lines[1..] == Lines(JoinLines(files)) && Trim("") == "";
    if forall i :: 0 <= i < |files| ==> IsPlainLine(files[i]) {
      LinesOfJoin(files);
    }
    if TrimmedLines(lines) == files {
      forall i | 0 <= i < |lines| ensures '\n' !in lines[i] { LinesHaveNoNewline(block, i); }
      forall i | 0 <= i < |files| ensures IsPlainLine(files[i]) { TrimmedLinesArePlain(lines, i); }
    }
  }

  /** What stripping does to a text that splits at its last marker as given. */
  lemma StripAt(s: string, files: seq<string>, text: string, metadata: string)
    requires RSplitOnce(s, MARKER) == Some((text, metadata))
    ensures StripFilesMarker(s, files)
            == if TrimmedLines(Lines(metadata)) == files then StripSuffix(text, "\n\n") else s
  {
  }

  /** Where a printed message splits at its last marker. */
  lemma SplitAtMark(c: string, mark: string, paths: seq<string>) returns (text: string, metadata: string)
    requires IsMark(mark)
    ensures RSplitOnce(c + Block(mark, paths), mark) == Some((text, metadata))
    ensures MarkFree(mark, paths) ==> text == c && metadata == "\n" + JoinLines(paths)
    ensures !MarkFree(mark, paths) ==> |text| > |c|
  {
    LastMark(c, mark, paths);
    var s := c + Block(mark, paths);
    var last := LastOccurrence(s, mark, |s|).value;
    text, metadata := s[..last], s[last + |mark|..];
    assert s[..|c|] == c;
    assert s[|c| + |mark|..] == "\n" + JoinLines(paths);
  }

  lemma SplitPrinted(c: string, files: seq<string>) returns (text: string, metadata: string)
    requires files != []
    ensures RSplitOnce(AppendFilesMarker(c, files), MARKER) == Some((text, metadata))
    ensures MarkFree(MARKER, files) ==> text == c + "\n\n" && metadata == "\n" + JoinLines(files)
    ensures !MarkFree(MARKER, files) ==> |text| > |c| + 2
  {
    MarkerIsMark();
    text, metadata := SplitAtMark(c + "\n\n", MARKER, files);
  }

  lemma StripBlankLine(c: string)
    ensures StripSuffix(c + "\n\n", "\n\n") == c
  {
    assert (c + "\n\n")[|c|..] == "\n\n" && (c + "\n\n")[..|c|] == c;
  }

  /**
   Stripping undoes printing, for every text (even one with markers of its own), exactly when
   every path is printable.
   */
  lemma StripUndoesAppendIff(c: string, files: seq<string>)
    requires files != []
    ensures StripFilesMarker(AppendFilesMarker(c, files), files) == c <==> AllPrintable(files)
  {
    var s := AppendFilesMarker(c, files);
    var text, metadata := SplitPrinted(c, files);
    StripAt(s, files, text, metadata);
    StripBlankLine(c);
    BlockReadsBack(files);
    assert |s| > |c|;
  }

  /** Completing the path list twice is completing it once, exactly when every path is printable. */
  lemma AllPathsIdempotentIff(content: string, files: seq<string>)
    requires files != []
    ensures ContentWithAllPaths(ContentWithAllPaths(content, files), files) == ContentWithAllPaths(content, files)
            <==> AllPrintable(files)
  {
    var once := StripFilesMarker(content, files);
    StripUndoesAppendIff(once, files);
    AppendIsInjective(once, StripFilesMarker(AppendFilesMarker(once, files), files), files);
  }

  lemma AppendIsInjective(a: string, b: string, paths: seq<string>)
    ensures AppendFilesMarker(a, paths) == AppendFilesMarker(b, paths) ==> a == b
  {
    if paths != [] {
      var tail := "\n\n" + Block(MARKER, paths);
      assert AppendFilesMarker(a, paths) == a + tail && AppendFilesMarker(b, paths) == b + tail;
      assert (a + tail)[..|a|] == a && (b + tail)[..|b|] == b;
    }
  }

  /** A message that already lists all its printable paths is left as it is. */
  lemma AllPathsKeepsCanonical(c: string, files: seq<string>)
    requires files != [] && AllPrintable(files)
    ensures ContentWithAllPaths(AppendFilesMarker(c, files), files) == AppendFilesMarker(c, files)
  {
    StripUndoesAppendIff(c, files);
  }

  /** How a message with attachments is printed. */
  lemma PrintedReads(c: string, paths: seq<string>)
    ensures AppendFilesMarker(c, []) == c
    ensures paths != [] ==> AppendFilesMarker(c, paths) == c + "\n\n[[AION_FILES]]\n" + JoinLines(paths)
  {
    PrintedParts(c, JoinLines(paths));
  }

  lemma PrintedParts(c: string, list: string)
    ensures c + "\n\n" + (MARKER + "\n" + list) == c + "\n\n[[AION_FILES]]\n" + list
  {
    assert "\n\n" + MARKER + "\n" == "\n\n[[AION_FILES]]\n";
    assert c + "\n\n" + (MARKER + "\n" + list) == c + ("\n\n" + MARKER + "\n") + list;
  }

  /** A text without a marker, or whose marker lists other paths, is left as it is. */
  lemma StripLeavesOthers(c: string, files: seq<string>, others: seq<string>)
    ensures !Contains(c, "[[AION_FILES]]") ==> StripFilesMarker(c, files) == c
    ensures others != [] && AllPrintable(others) && files != others
            ==> StripFilesMarker(AppendFilesMarker(c, others), files) == AppendFilesMarker(c, others)
  {
    if others != [] && AllPrintable(others) && files != others {
      var text, metadata := SplitPrinted(c, others);
      StripAt(AppendFilesMarker(c, others), files, text, metadata);
      BlockReadsBack(others);
    }
  }

  // ---------------------------------------------------------------- partition

  datatype PromptMediaCaps = PromptMediaCaps(image: bool, audio: bool)

  datatype MediaKind = Image | Audio

  datatype Mime = Mime(kind: string, subtype: string, essence: string)

  datatype Metadata = Metadata(isFile: bool, bytes: nat)

  /** What the MIME tables and the file system say of one path. */
  datatype Facts = Facts(mime: Option<Mime>, metadata: Option<Metadata>)

  datatype MediaAttachment = MediaAttachment(path: string, mime: string, kind: MediaKind)

  datatype MediaPartition = MediaPartition(content: string, pathFiles: seq<string>, media: seq<MediaAttachment>)

  /** `Some`: send as a native block. A path stays a path when in doubt. */
  function Classify(path: string, caps: PromptMediaCaps, facts: string -> Facts): Option<MediaAttachment> {
    match facts(path).mime
    case None => None
    case Some(mime) =>
      var kind := if mime.kind == "image" && caps.image && mime.subtype != "svg" then Some(Image)
                  else if mime.kind == "audio" && caps.audio then Some(Audio)
                  else None;
      match (kind, facts(path).metadata)
      case (Some(k), Some(meta)) =>
        if meta.isFile && meta.bytes <= MAX_MEDIA_BLOCK_BYTES
        then Some(MediaAttachment(path, mime.essence, k)) else None
      case _ => None
  }

  /** Who can go natively: a regular file of at most 5 MiB, an image (but no SVG) or a sound the agent can take. */
  predicate GoesNative(caps: PromptMediaCaps, facts: Facts) {
    && facts.mime.Some? && facts.metadata.Some?
    && facts.metadata.value.isFile && facts.metadata.value.bytes <= 5_242_880
    && ((facts.mime.value.kind == "image" && facts.mime.value.subtype != "svg" && caps.image)
        || (facts.mime.value.kind == "audio" && caps.audio))
  }

  /** Such a block carries the path, its type without parameters, and whether it is an image or a sound. */
  predicate IsBlockOf(a: MediaAttachment, path: string, facts: Facts) {
    && a.path == path && facts.mime.Some? && a.mime == facts.mime.value.essence
    && (a.kind == Image <==> facts.mime.value.kind == "image")
  }

  lemma ClassifiesIff(path: string, caps: PromptMediaCaps, facts: string -> Facts)
    ensures Classify(path, caps, facts).Some? <==> GoesNative(caps, facts(path))
    ensures Classify(path, caps, facts).Some? ==> IsBlockOf(Classify(path, caps, facts).value, path, facts(path))
  {
  }

  /** The attachments sent natively, in order. */
  function MediaOf(files: seq<string>, caps: PromptMediaCaps, facts: string -> Facts): seq<MediaAttachment> {
    if files == [] then []
    else
      var last := Classify(files[|files| - 1], caps, facts);
      MediaOf(files[..|files| - 1], caps, facts) + (if last.Some? then [last.value] else [])
  }

  /** The attachments that stay paths, in order. */
  function PathsOf(files: seq<string>, caps: PromptMediaCaps, facts: string -> Facts): seq<string> {
    if files == [] then []
    else
      var last := files[|files| - 1];
      PathsOf(files[..|files| - 1], caps, facts) + (if Classify(last, caps, facts).Some? then [] else [last])
  }

  method PartitionMedia(content: string, files: seq<string>, caps: PromptMediaCaps, facts: string -> Facts)
    returns (r: MediaPartition)
    ensures r.pathFiles == PathsOf(files, caps, facts) && r.media == MediaOf(files, caps, facts)
    ensures r.content == if r.media == [] then content
                         else AppendFilesMarker(StripFilesMarker(content, files), r.pathFiles)
  {
    if files == [] || caps == PromptMediaCaps(false, false) {
      NothingNative(files, caps, facts);
      return MediaPartition(content, files, []);
    }
    var pathFiles, media := [], [];
    for i := 0 to |files|
      invariant pathFiles == PathsOf(files[..i], caps, facts) && media == MediaOf(files[..i], caps, facts)
    {
      assert files[..i + 1][..i] == files[..i];
      match Classify(files[i], caps, facts) {
        case Some(attachment) => media := media + [attachment];
        case None => pathFiles := pathFiles + [files[i]];
      }
    }
    assert files[..|files|] == files;
    r := MediaPartition(
      if media == [] then content else AppendFilesMarker(StripFilesMarker(content, files), pathFiles), pathFiles, media);
  }

  /** Without capabilities nothing is sent natively. */
  lemma {:induction false} NothingNative(files: seq<string>, caps: PromptMediaCaps, facts: string -> Facts)
    requires files == [] || caps == PromptMediaCaps(false, false)
    ensures MediaOf(files, caps, facts) == [] && PathsOf(files, caps, facts) == files
  {
    if files != [] { NothingNative(files[..|files| - 1], caps, facts); }
  }

  /** Positions of `files` in increasing order. */
  predicate Increasing(at: seq<nat>, n: nat) {
    && (forall i :: 0 <= i < |at| ==> at[i] < n)
    && (forall i, j :: 0 <= i < j < |at| ==> at[i] < at[j])
  }

  /** `names` are the files at the positions `at`. */
  predicate Selects(names: seq<string>, files: seq<string>, at: seq<nat>) {
    |names| == |at| && Increasing(at, |files|) && forall i :: 0 <= i < |at| ==> names[i] == files[at[i]]
  }

  function Names(media: seq<MediaAttachment>): seq<string> {
    seq(|media|, i requires 0 <= i < |media| => media[i].path)
  }

  /** A selection from all files but the last is one from all files, and can be extended by the last. */
  lemma SelectsMore(names: seq<string>, files: seq<string>, at: seq<nat>)
    requires files != [] && Selects(names, files[..|files| - 1], at)
    ensures Selects(names, files, at)
    ensures Selects(names + [files[|files| - 1]], files, at + [|files| - 1])
  {
    var front := files[..|files| - 1];
    assert forall i :: 0 <= i < |at| ==> front[at[i]] == files[at[i]];
  }

  /**
   The two lists are order-preserving subsequences of `files` that share no position and together
   cover all of them: every attachment goes exactly one way.
   */
  lemma {:induction false} PartitionIsExact(files: seq<string>, caps: PromptMediaCaps, facts: string -> Facts)
    returns (native: seq<nat>, path: seq<nat>)
    ensures Selects(Names(MediaOf(files, caps, facts)), files, native)
    ensures Selects(PathsOf(files, caps, facts), files, path)
    ensures forall k :: 0 <= k < |files| ==> (k in native <==> k !in path)
    ensures forall k :: 0 <= k < |files| ==> (k in native <==> GoesNative(caps, facts(files[k])))
    ensures forall k :: 0 <= k < |native| ==> IsBlockOf(MediaOf(files, caps, facts)[k], files[native[k]], facts(files[native[k]]))
  {
    native, path := [], [];
    if files != [] {
      var n := |files| - 1;
      native, path := PartitionIsExact(files[..n], caps, facts);
      var media, paths := MediaOf(files[..n], caps, facts), PathsOf(files[..n], caps, facts);
      SelectsMore(Names(media), files, native);
      SelectsMore(paths, files, path);
      assert n !in native && n !in path;
      var c := Classify(files[n], caps, facts);
      ClassifiesIff(files[n], caps, facts);
      if c.Some? {
        assert Names(media + [c.value]) == Names(media) + [files[n]];
        native := native + [n];
      } else {
        path := path + [n];
      }
    }
  }

  /** A message printed with all its paths becomes the message printed with the remaining ones. */
  lemma PartitionKeepsCanonical(c: string, files: seq<string>, caps: PromptMediaCaps, facts: string -> Facts)
    requires files != [] && AllPrintable(files)
    ensures var paths := PathsOf(files, caps, facts);
            && AppendFilesMarker(StripFilesMarker(AppendFilesMarker(c, files), files), paths) == AppendFilesMarker(c, paths)
            && (paths != [] ==> StripFilesMarker(AppendFilesMarker(c, paths), paths) == c)
            && (paths == [] ==> AppendFilesMarker(c, paths) == c)
  {
    StripUndoesAppendIff(c, files);
    var paths := PathsOf(files, caps, facts);
    if paths != [] {
      var native, path := PartitionIsExact(files, caps, facts);
      StripUndoesAppendIff(c, paths);
    }
  }
}
