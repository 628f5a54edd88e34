/** The program around the two catalogs (`src/main.rs`): the answer
    normalisation of `read`, the prompts that edit the configuration, the
    fetch phase of `main`, and `save_images`, which turns a catalog into
    image files and lines of the TeamSpeak manifest `emoticons.txt`.

    Standard input, the filesystem and the image downloads are replaced by
    values supplied by the caller: the answers typed at the prompts, the
    set of file names already present in `./twitchemotes/emoticons/`, and
    one `Transfer` per record telling whether its GET, its `File::create`,
    its `io::copy` and its manifest write succeed.
 */
module App {
  import opened Outcomes
  import opened Text
  import opened Ttv
  import JsonValue

  // =====================================================================
  // `read`: normalising one answer
  // =====================================================================

  /** `String::pop` when the last character is `c`. */
  function PopIf(s: string, c: char): string
  {
    if s != [] && s[|s| - 1] == c then s[..|s| - 1] else s
  }

  /** What `read` returns for the raw line `read_line` stored: at most one
      trailing `\n`, then at most one trailing `\r` removed, the rest
      lower-cased and trimmed. */
  function Normalize(raw: string): string
  {
    Trim(Lower(PopIf(PopIf(raw, '\n'), '\r')))
  }

  /** An answer neither starts nor ends with whitespace and holds no
      upper-case letter. */
  lemma NormalizeShape(raw: string)
    ensures var r := Normalize(raw);
            && (r != [] ==> !IsWhitespace(r[0]) && !IsWhitespace(r[|r| - 1]))
            && (forall k | 0 <= k < |r| :: !IsUpper(r[k]))
  {
    TrimNoUpper(Lower(PopIf(PopIf(raw, '\n'), '\r')));
  }

  /** Normalising an answer again changes nothing. */
  lemma NormalizeIdempotent(raw: string)
    ensures Normalize(Normalize(raw)) == Normalize(raw)
  {
    var r := Normalize(raw);
    NormalizeShape(raw);
    assert IsWhitespace('\n') && IsWhitespace('\r');
    assert PopIf(PopIf(r, '\n'), '\r') == r;
    LowerNoUpper(r);
    TrimNoOp(r);
  }

  /** A channel typed with a capital and a Windows line end, and the
      empty buffer `read_line` leaves at the end of input. */
  lemma NormalizeExample()
    ensures Normalize("Xqc\r\n") == "xqc"
    ensures Normalize("") == ""
  {
    assert PopIf("Xqc\r\n", '\n') == "Xqc\r";
    assert PopIf("Xqc\r", '\r') == "Xqc";
    assert Lower("Xqc") == "xqc";
    TrimNoOp("xqc");
  }

  // =====================================================================
  // The prompts that edit the configuration
  // =====================================================================

  /** The answer to prompt number `pos`, where `answers` lists what the
      successive calls of `read` return (each one `Normalize` of a typed
      line). Past the last line, `read_line` meets the end of input and
      leaves the buffer empty, so `read` returns "" (`NormalizeExample`). */
  function Answer(answers: seq<string>, pos: nat): string
  {
    if pos < |answers| then answers[pos] else ""
  }

  /** A yes-by-default question: yes unless the answer starts with "n". */
  predicate Accepts(answer: string)
  {
    !StartsWith(answer, "n")
  }

  /** The fields of `Config` that `main` reads and writes. */
  datatype Config = Config(globalTtv: bool, ttvChannels: seq<string>,
                           globalBttv: bool, bttvChannels: seq<string>)

  /** A "Channel: " prompt loop that starts at prompt `pos`: the answers
      read before the first empty one, and the prompt after that one. */
  function ChannelPrompt(answers: seq<string>, pos: nat): (seq<string>, nat)
    decreases if pos < |answers| then |answers| - pos else 0
  {
    var a := Answer(answers, pos);
    if a == "" then ([], pos + 1)
    else
      var rest := ChannelPrompt(answers, pos + 1);
      ([a] + rest.0, rest.1)
  }

  /** The loop keeps every answer before the first empty one, in order,
      and consumes that empty one too. */
  lemma {:induction false} ChannelPromptExact(answers: seq<string>, pos: nat)
    ensures var p := ChannelPrompt(answers, pos);
            && p.1 == pos + |p.0| + 1
            && (forall k | 0 <= k < |p.0| :: p.0[k] == Answer(answers, pos + k) && p.0[k] != "")
            && Answer(answers, pos + |p.0|) == ""
    decreases if pos < |answers| then |answers| - pos else 0
  {
    var a := Answer(answers, pos);
    if a != "" {
      ChannelPromptExact(answers, pos + 1);
      var rest := ChannelPrompt(answers, pos + 1);
      var p := ChannelPrompt(answers, pos);
      assert p == ([a] + rest.0, rest.1);
      forall k | 0 <= k < |p.0|
        ensures p.0[k] == Answer(answers, pos + k) && p.0[k] != ""
      {
        if k > 0 {
          assert p.0[k] == rest.0[k - 1];
        }
      }
    }
  }

  /** The prompt sequence up to "Save config?": every answer is read in
      this order, and `used` is the number of prompts shown. */
  method EditConfig(config: Config, answers: seq<string>)
    returns (c: Config, savePath: Option<string>, used: nat)
    ensures !Accepts(Answer(answers, 0)) ==> c == config && savePath == None && used == 1
    ensures Accepts(Answer(answers, 0)) ==>
              var ttvs := ChannelPrompt(answers, 2);
              var bttvs := ChannelPrompt(answers, ttvs.1 + 1);
              var save := Accepts(Answer(answers, bttvs.1));
              && c == Config(Accepts(Answer(answers, 1)), config.ttvChannels + ttvs.0,
                             Accepts(Answer(answers, ttvs.1)), config.bttvChannels + bttvs.0)
              && savePath == (if save then Some(Answer(answers, bttvs.1 + 1)) else None)
              && used == (if save then bttvs.1 + 2 else bttvs.1 + 1)
  {
    c := config;
    savePath := None;
    var pos := 0;
    var input := Answer(answers, pos);
    pos := pos + 1;
    var edit := Accepts(input);
    if edit {
      input := Answer(answers, pos);
      pos := pos + 1;
      c := c.(globalTtv := Accepts(input));
      var ttvChannels;
      ttvChannels, pos := ReadChannels(answers, pos, c.ttvChannels);
      c := c.(ttvChannels := ttvChannels);
      input := Answer(answers, pos);
      pos := pos + 1;
      c := c.(globalBttv := Accepts(input));
      var bttvChannels;
      bttvChannels, pos := ReadChannels(answers, pos, c.bttvChannels);
      c := c.(bttvChannels := bttvChannels);
    }
    if edit {
      input := Answer(answers, pos);
      pos := pos + 1;
      if Accepts(input) {
        savePath := Some(Answer(answers, pos));
        pos := pos + 1;
      }
    }
    used := pos;
  }

  /** One "Channel: " loop: pushes every answer onto `channels` until the
      first empty one. */
  method ReadChannels(answers: seq<string>, start: nat, channels: seq<string>)
    returns (grown: seq<string>, next: nat)
    ensures grown == channels + ChannelPrompt(answers, start).0
    ensures next == ChannelPrompt(answers, start).1
  {
    grown := channels;
    var pos := start;
    while true
      invariant grown + ChannelPrompt(answers, pos).0 == channels + ChannelPrompt(answers, start).0
      invariant ChannelPrompt(answers, pos).1 == ChannelPrompt(answers, start).1
      decreases if pos < |answers| then |answers| - pos else 0
    {
      ghost var here := pos;
      var input := Answer(answers, pos);
      pos := pos + 1;
      if input == "" {
        break;
      }
      assert ChannelPrompt(answers, here).0 == [input] + ChannelPrompt(answers, pos).0;
      grown := grown + [input];
    }
    next := pos;
  }

  // =====================================================================
  // `save_images`
  // =====================================================================

  /** `{id}.png`, the name of an image inside `./twitchemotes/emoticons/`. */
  function FileName(id: string): string
  {
    id + ".png"
  }

  lemma FileNameInjective(a: string, b: string)
    requires FileName(a) == FileName(b)
    ensures a == b
  {
    assert |a| == |b|;
    assert a == FileName(a)[..|a|];
    assert b == FileName(b)[..|b|];
  }

  /** The URL of one image: every `{image_id}` of the template replaced by
      the id, then every `{{id}}`. */
  function DownloadUrl(template: string, id: string): string
  {
    ReplaceAll(ReplaceAll(template, "{image_id}", id), "{{id}}", id)
  }

  /** For an id that shares no character with either placeholder, the URL
      holds no placeholder any more. */
  lemma DownloadUrlFilled(template: string, id: string)
    requires id != []
    requires Disjoint(id, "{image_id}") && Disjoint(id, "{{id}}")
    ensures !Occurs(DownloadUrl(template, id), "{image_id}")
    ensures !Occurs(DownloadUrl(template, id), "{{id}}")
  {
    var once := ReplaceAll(template, "{image_id}", id);
    ReplaceAllRemoves(template, "{image_id}", id);
    ReplaceAllRemoves(once, "{{id}}", id);
    ReplaceAllKeepsAbsent(once, "{{id}}", id, "{image_id}");
  }

  /** Twitch ids are decimal numbers, so every Twitch URL is filled in. */
  lemma DecimalUrlFilled(template: string, n: nat)
    ensures !Occurs(DownloadUrl(template, Decimal(n)), "{image_id}")
    ensures !Occurs(DownloadUrl(template, Decimal(n)), "{{id}}")
  {
    var id := Decimal(n);
    forall k | 0 <= k < |id|
      ensures id[k] !in "{image_id}" && id[k] !in "{{id}}"
    {
      assert IsDigit(id[k]);
    }
    DownloadUrlFilled(template, id);
  }

  /** A template without `{image_id}`, like the BetterTTV one, only has
      its `{{id}}` placeholders replaced. */
  lemma DownloadUrlWithoutImageId(template: string, id: string)
    requires !Occurs(template, "{image_id}")
    ensures DownloadUrl(template, id) == ReplaceAll(template, "{{id}}", id)
  {
    ReplaceAllNoMatch(template, "{image_id}", id);
  }

  /** The line `writeln!` adds to the manifest for one image:
      `{id}.png = "{name}"` and a newline. */
  function ManifestLine(id: string, name: string): string
  {
    FileName(id) + " = \"" + name + "\"\n"
  }

  /** The first position of `c` in `s`, for `ReadBackManifestLine`. */
  function ReadBackFirstIndex(s: string, c: char): (r: Option<nat>)
    ensures r.None? ==> c !in s
    ensures r.Some? ==> r.value < |s| && s[r.value] == c
                        && forall k | 0 <= k < r.value :: s[k] != c
  {
    if s == [] then None
    else if s[0] == c then Some(0)
    else
      match ReadBackFirstIndex(s[1..], c)
      case None => None
      case Some(i) => Some(i + 1)
  }

  /** Reading a manifest line back: the id runs up to the first `.`, the
      name lies between the quotes. The program never reads
      `emoticons.txt`; this parser and `ReadBackFirstIndex` exist only to
      state, in `ManifestLineRoundTrip`, that a line determines its id and
      its name. */
  function ReadBackManifestLine(line: string): Option<(string, string)>
  {
    match ReadBackFirstIndex(line, '.')
    case None => None
    case Some(i) =>
      if StartsWith(line[i..], ".png = \"") && |line| - i >= 10
         && line[|line| - 2..] == "\"\n"
      then Some((line[..i], line[i + 8..|line| - 2]))
      else None
  }

  /** A manifest line gives back its id and its name, whatever the name,
      as long as the id holds no `.`. */
  lemma ManifestLineRoundTrip(id: string, name: string)
    requires '.' !in id
    ensures ReadBackManifestLine(ManifestLine(id, name)) == Some((id, name))
  {
    var line := ManifestLine(id, name);
    var tail := ".png = \"" + name + "\"\n";
    assert line == id + tail;
    assert forall k | 0 <= k < |id| :: line[k] == id[k];
    ReadBackFirstIndexAt(line, '.', |id|);
    assert line[|id|..] == tail && line[..|id|] == id;
    assert StartsWith(tail, ".png = \"");
    assert line[|line| - 2..] == "\"\n";
    assert line[|id| + 8..|line| - 2] == name;
  }

  /** The first `c` is where the character `c` first occurs. */
  lemma {:induction false} ReadBackFirstIndexAt(s: string, c: char, i: nat)
    requires i < |s| && s[i] == c
    requires forall k | 0 <= k < i :: s[k] != c
    ensures ReadBackFirstIndex(s, c) == Some(i)
  {
    if i > 0 {
      ReadBackFirstIndexAt(s[1..], c, i - 1);
    }
  }

  /** What happens to one record: the GET, the `File::create`, the
      `io::copy` and the manifest `writeln!` succeed or fail. */
  datatype Transfer = Transfer(sent: bool, created: bool, copied: bool, recorded: bool)

  /** Opening `emoticons.txt` for appending, and creating it instead. */
  datatype ManifestOpen = ManifestOpen(append: bool, create: bool)

  /** A snapshot of what the pipeline has done: the files present, the
      manifest text, the image URLs requested and the progress count. */
  datatype Disk = Disk(files: set<string>, manifest: string, fetched: seq<string>, progress: nat)

  /** The image files are all saved. */
  predicate Done(t: Transfer)
  {
    t.sent && t.created && t.copied
  }

  /** One turn of the loop of `save_images`. */
  function Step(template: string, d: Disk, e: Emote, t: Transfer): Disk
  {
    var file := FileName(e.id);
    if file in d.files then d
    else
      var asked := d.(fetched := d.fetched + [DownloadUrl(template, e.id)]);
      if !t.sent || !t.created then asked
      else
        var made := asked.(files := asked.files + {file});
        if !t.copied then made
        else if t.recorded then
          made.(manifest := made.manifest + ManifestLine(e.id, e.name), progress := made.progress + 1)
        else made.(progress := made.progress + 1)
  }

  /** The whole loop, the record at position `k` meeting `io(k)`. */
  function SaveAll(template: string, d: Disk, emotes: seq<Emote>, io: nat -> Transfer): Disk
    decreases |emotes|
  {
    if emotes == [] then d
    else
      var n := |emotes| - 1;
      Step(template, SaveAll(template, d, emotes[..n], io), emotes[n], io(n))
  }

  /** How `save_images` ends: the TLS client could not be built (the
      `unwrap` panics), the manifest could be neither opened nor created,
      or the loop ran with this final progress count. */
  datatype Saved = TlsPanic | NoManifest | Finished(progress: nat)

  /** The emoticons directory, its manifest and the image requests made. */
  class Workspace {
    var files: set<string>
    var manifest: string
    var fetched: seq<string>

    constructor (files: set<string>, manifest: string)
      ensures this.files == files && this.manifest == manifest && fetched == []
    {
      this.files := files;
      this.manifest := manifest;
      fetched := [];
    }
  }

  /** The state of the emoticons directory between two calls: the files,
      the manifest and the image requests made so far. */
  datatype Dir = Dir(files: set<string>, manifest: string, fetched: seq<string>)

  /** One call of `save_images` on the directory `dir`: nothing happens
      without a TLS client or a manifest; otherwise the loop runs from the
      manifest opened for appending, or from the empty one `File::create`
      leaves. */
  function SaveRun(template: string, dir: Dir, tls: bool, open: ManifestOpen,
                   emotes: seq<Emote>, io: nat -> Transfer): (r: (Saved, Dir))
    ensures r.0 == TlsPanic <==> !tls
    ensures r.0 == NoManifest <==> tls && !open.append && !open.create
    ensures !r.0.Finished? ==> r.1 == dir
    ensures r.0.Finished? ==>
              var d := SaveAll(template, Disk(dir.files, if open.append then dir.manifest else "", dir.fetched, 0),
                               emotes, io);
              r == (Finished(d.progress), Dir(d.files, d.manifest, d.fetched))
  {
    if !tls then (TlsPanic, dir)
    else if !open.append && !open.create then (NoManifest, dir)
    else
      var d := SaveAll(template, Disk(dir.files, if open.append then dir.manifest else "", dir.fetched, 0),
                       emotes, io);
      (Finished(d.progress), Dir(d.files, d.manifest, d.fetched))
  }

  /** The directory state a workspace holds. */
  function DirOf(ws: Workspace): Dir
    reads ws
  {
    Dir(ws.files, ws.manifest, ws.fetched)
  }

  /** Downloads every record whose file is missing, writes its manifest
      line, and returns the emptied list; a run that stops early leaves
      the list as it was. */
  method SaveImages(template: string, emotes: seq<Emote>, ws: Workspace, tls: bool,
                    open: ManifestOpen, io: nat -> Transfer)
    returns (remaining: seq<Emote>, saved: Saved)
    modifies ws
    ensures (saved, DirOf(ws)) == SaveRun(template, old(DirOf(ws)), tls, open, emotes, io)
    ensures remaining == (if saved.Finished? then [] else emotes)
  {
    if !tls {
      return emotes, TlsPanic;
    }
    if !open.append {
      if !open.create {
        return emotes, NoManifest;
      }
      ws.manifest := "";
    }
    ghost var start := Disk(ws.files, ws.manifest, ws.fetched, 0);
    var progress := 0;
    for i := 0 to |emotes|
      invariant Disk(ws.files, ws.manifest, ws.fetched, progress) == SaveAll(template, start, emotes[..i], io)
    {
      assert emotes[..i + 1][..i] == emotes[..i];
      var name := emotes[i].name;
      var id := emotes[i].id;
      var file := FileName(id);
      if file in ws.files {
        continue;
      }
      ws.fetched := ws.fetched + [DownloadUrl(template, id)];
      var t := io(i);
      if !t.sent {
        continue;
      }
      if !t.created {
        continue;
      }
      ws.files := ws.files + {file};
      if !t.copied {
        continue;
      }
      if t.recorded {
        ws.manifest := ws.manifest + ManifestLine(id, name);
      }
      progress := progress + 1;
    }
    assert emotes[..|emotes|] == emotes;
    remaining := [];
    saved := Finished(progress);
  }

  // ---------------------------------------------------------------------
  // What the loop guarantees
  // ---------------------------------------------------------------------

  /** Files are only added, the manifest and the request log only grow,
      and every record adds at most one request and one progress step. */
  lemma {:induction false} SaveAllGrows(template: string, d: Disk, emotes: seq<Emote>, io: nat -> Transfer)
    ensures var r := SaveAll(template, d, emotes, io);
            && d.files <= r.files
            && StartsWith(r.manifest, d.manifest)
            && |d.fetched| <= |r.fetched| <= |d.fetched| + |emotes|
            && r.fetched[..|d.fetched|] == d.fetched
            && d.progress <= r.progress <= d.progress + |emotes|
    decreases |emotes|
  {
    if emotes != [] {
      var n := |emotes| - 1;
      var mid := SaveAll(template, d, emotes[..n], io);
      SaveAllGrows(template, d, emotes[..n], io);
      var r := Step(template, mid, emotes[n], io(n));
      assert r.manifest[..|mid.manifest|] == mid.manifest;
      assert r.manifest[..|d.manifest|] == mid.manifest[..|d.manifest|];
      assert r.fetched[..|mid.fetched|] == mid.fetched;
      assert r.fetched[..|d.fetched|] == mid.fetched[..|d.fetched|];
    }
  }

  /** The names of the files of a list of records. */
  function Names(emotes: seq<Emote>): set<string>
  {
    set k | 0 <= k < |emotes| :: FileName(emotes[k].id)
  }

  /** The only files created are those of the records. */
  lemma {:induction false} SaveAllCreatesOnly(template: string, d: Disk, emotes: seq<Emote>, io: nat -> Transfer)
    ensures SaveAll(template, d, emotes, io).files <= d.files + Names(emotes)
    decreases |emotes|
  {
    if emotes != [] {
      var n := |emotes| - 1;
      SaveAllCreatesOnly(template, d, emotes[..n], io);
      assert Names(emotes[..n]) <= Names(emotes) by {
        forall f | f in Names(emotes[..n])
          ensures f in Names(emotes)
        {
          var k :| 0 <= k < n && FileName(emotes[..n][k].id) == f;
          assert emotes[k] == emotes[..n][k];
        }
      }
      assert FileName(emotes[n].id) in Names(emotes);
    }
  }

  /** Every record whose GET and create succeeded has its file afterwards,
      even when the copy failed and left the file incomplete. */
  lemma {:induction false} SaveAllCreates(template: string, d: Disk, emotes: seq<Emote>, io: nat -> Transfer)
    ensures forall k | 0 <= k < |emotes| ::
              io(k).sent && io(k).created ==> FileName(emotes[k].id) in SaveAll(template, d, emotes, io).files
    decreases |emotes|
  {
    if emotes != [] {
      var n := |emotes| - 1;
      var init := emotes[..n];
      SaveAllCreates(template, d, init, io);
      var mid := SaveAll(template, d, init, io);
      var r := SaveAll(template, d, emotes, io);
      assert r == Step(template, mid, emotes[n], io(n));
      assert mid.files <= r.files;
      forall k | 0 <= k < |emotes| && io(k).sent && io(k).created
        ensures FileName(emotes[k].id) in r.files
      {
        if k < n {
          assert init[k] == emotes[k];
        }
      }
    }
  }

  /** Records whose files all exist already cause no request, no file, no
      manifest line and no progress step. */
  lemma {:induction false} SaveAllExisting(template: string, d: Disk, emotes: seq<Emote>, io: nat -> Transfer)
    requires forall k | 0 <= k < |emotes| :: FileName(emotes[k].id) in d.files
    ensures SaveAll(template, d, emotes, io) == d
    decreases |emotes|
  {
    if emotes != [] {
      var n := |emotes| - 1;
      var init := emotes[..n];
      assert forall k | 0 <= k < |init| :: init[k] == emotes[k];
      SaveAllExisting(template, d, init, io);
    }
  }

  /** Skip-if-exists inside any list: a record whose file is present when
      the loop reaches it (there before the run, or created by an earlier
      record with the same id) changes nothing. */
  lemma SaveAllSkipsExisting(template: string, d: Disk, emotes: seq<Emote>, e: Emote, io: nat -> Transfer)
    requires FileName(e.id) in SaveAll(template, d, emotes, io).files
    ensures SaveAll(template, d, emotes + [e], io) == SaveAll(template, d, emotes, io)
  {
    assert (emotes + [e])[..|emotes|] == emotes;
  }

  /** Running the pipeline again after every GET and create succeeded
      changes nothing, whatever happens on the second run. */
  lemma SaveAllRerun(template: string, d: Disk, emotes: seq<Emote>, io: nat -> Transfer,
                     again: Disk, io2: nat -> Transfer)
    requires forall k | 0 <= k < |emotes| :: io(k).sent && io(k).created
    requires SaveAll(template, d, emotes, io).files <= again.files
    ensures SaveAll(template, again, emotes, io2) == again
  {
    SaveAllCreates(template, d, emotes, io);
    SaveAllExisting(template, again, emotes, io2);
  }

  /** The URLs of a list of records, in order. */
  function Urls(template: string, emotes: seq<Emote>): (r: seq<string>)
    ensures |r| == |emotes|
    ensures forall k | 0 <= k < |emotes| :: r[k] == DownloadUrl(template, emotes[k].id)
  {
    if emotes == [] then []
    else Urls(template, emotes[..|emotes| - 1]) + [DownloadUrl(template, emotes[|emotes| - 1].id)]
  }

  /** The manifest lines of the records fully saved and recorded, in order. */
  function Written(emotes: seq<Emote>, io: nat -> Transfer): string
  {
    if emotes == [] then ""
    else
      var n := |emotes| - 1;
      var t := io(n);
      Written(emotes[..n], io)
      + (if Done(t) && t.recorded then ManifestLine(emotes[n].id, emotes[n].name) else "")
  }

  /** The number of records fully saved. */
  function DoneCount(emotes: seq<Emote>, io: nat -> Transfer): (r: nat)
    ensures r <= |emotes|
  {
    if emotes == [] then 0
    else
      var n := |emotes| - 1;
      DoneCount(emotes[..n], io) + (if Done(io(n)) then 1 else 0)
  }

  /** With distinct ids and none of their files present: one request per
      record, in order; one manifest line per record whose GET, create,
      copy and write all succeeded; one progress step per saved record,
      whether or not its manifest write succeeded. */
  lemma {:induction false} SaveAllFresh(template: string, d: Disk, emotes: seq<Emote>, io: nat -> Transfer)
    requires forall i, j | 0 <= i < j < |emotes| :: emotes[i].id != emotes[j].id
    requires forall k | 0 <= k < |emotes| :: FileName(emotes[k].id) !in d.files
    ensures var r := SaveAll(template, d, emotes, io);
            && r.fetched == d.fetched + Urls(template, emotes)
            && r.manifest == d.manifest + Written(emotes, io)
            && r.progress == d.progress + DoneCount(emotes, io)
    decreases |emotes|
  {
    if emotes != [] {
      var n := |emotes| - 1;
      var init := emotes[..n];
      assert forall k | 0 <= k < |init| :: init[k] == emotes[k];
      SaveAllFresh(template, d, init, io);
      var e := emotes[n];
      NotYetCreated(template, d, init, io, e);
      var mid := SaveAll(template, d, init, io);
      StepFresh(template, mid, e, io(n));
      var line := if Done(io(n)) && io(n).recorded then ManifestLine(e.id, e.name) else "";
      assert Written(emotes, io) == Written(init, io) + line;
      AppendAssociative(d.manifest, Written(init, io), line);
      var url := DownloadUrl(template, e.id);
      assert Urls(template, emotes) == Urls(template, init) + [url];
      AppendAssociative(d.fetched, Urls(template, init), [url]);
    }
  }

  /** One record whose file is missing: one request, and a manifest line
      and a progress step when it is saved. */
  lemma StepFresh(template: string, d: Disk, e: Emote, t: Transfer)
    requires FileName(e.id) !in d.files
    ensures var r := Step(template, d, e, t);
            && r.fetched == d.fetched + [DownloadUrl(template, e.id)]
            && r.manifest == d.manifest + (if Done(t) && t.recorded then ManifestLine(e.id, e.name) else "")
            && r.progress == d.progress + (if Done(t) then 1 else 0)
  {
  }

  /** A record whose id no earlier record shares finds its file missing. */
  lemma NotYetCreated(template: string, d: Disk, init: seq<Emote>, io: nat -> Transfer, e: Emote)
    requires FileName(e.id) !in d.files
    requires forall k | 0 <= k < |init| :: init[k].id != e.id
    ensures FileName(e.id) !in SaveAll(template, d, init, io).files
  {
    SaveAllCreatesOnly(template, d, init, io);
    if FileName(e.id) in Names(init) {
      var k :| 0 <= k < |init| && FileName(init[k].id) == FileName(e.id);
      FileNameInjective(init[k].id, e.id);
    }
  }

  /** The end-to-end case: the record ("Kappa", "25") saved into an empty
      directory gives the file `25.png` and the manifest line
      `25.png = "Kappa"`. */
  lemma KappaExample(template: string)
    ensures var r := SaveAll(template, Disk({}, "", [], 0), [Emote("Kappa", "25")],
                             k => Transfer(true, true, true, true));
            && r.files == {"25.png"}
            && r.manifest == "25.png = \"Kappa\"\n"
            && r.progress == 1
  {
    var emotes := [Emote("Kappa", "25")];
    assert emotes[..0] == [];
    assert FileName("25") == "25.png";
    assert ManifestLine("25", "Kappa") == "25.png = \"Kappa\"\n";
  }

  // =====================================================================
  // `main` after the prompts
  // =====================================================================

  /** How the fetch phase of `main` ends: normally, because the output
      directory could not be created, or by a panic of one of the calls. */
  datatype Exit = Completed | NoDirectory | Aborted

  /** What the fetch phase works on: the fields of both catalogs and the
      log of requests made. */
  datatype FetchState = FetchState(ttvTemplate: string, ttvData: seq<Emote>,
                                   subEmotes: Option<JsonValue.Json>,
                                   bttvTemplate: string, bttvData: seq<Emote>,
                                   requests: seq<string>)

  function StateOf(ttv: TtvEmoteData, bttv: BttvEmoteData, net: Network): FetchState
    reads ttv, bttv, net
  {
    FetchState(ttv.template, ttv.data, ttv.subEmotes, bttv.template, bttv.data, net.requests)
  }

  /** `get_global_emotes` on the state `s`; its reply is the next one. */
  function GlobalTtvCall(reply: nat -> Reply, s: FetchState): (Outcome<()>, FetchState)
  {
    var res := ResolveGlobal(DownloadJson(reply(|s.requests|)));
    var asked := s.(requests := s.requests + [GlobalUrl]);
    (Status(res),
     if res.Ok? then asked.(ttvTemplate := res.value.template, ttvData := s.ttvData + res.value.emotes)
     else asked)
  }

  /** `get_global_bttv_emotes` (for `BttvGlobalUrl`) or
      `get_channel_bttv_emotes` (for a channel's URL) on the state `s`. */
  function BttvCall(reply: nat -> Reply, s: FetchState, url: string): (r: (Outcome<()>, FetchState))
    ensures r.0 == Status(ResolveBttv(DownloadJson(reply(|s.requests|))))
    ensures r.1.requests == s.requests + [url]
  {
    var res := ResolveBttv(DownloadJson(reply(|s.requests|)));
    var asked := s.(requests := s.requests + [url]);
    (Status(res),
     if res.Ok? then asked.(bttvTemplate := res.value.template, bttvData := s.bttvData + res.value.emotes)
     else asked)
  }

  /** `update_sub_emote_data` on the state `s`. */
  function RefreshCall(reply: nat -> Reply, s: FetchState): (Outcome<()>, FetchState)
  {
    var res := ResolveSubscriber(DownloadJson(reply(|s.requests|)));
    var asked := s.(requests := s.requests + [SubscriberUrl]);
    (Status(res),
     if res.Ok? then asked.(ttvTemplate := res.value.template, subEmotes := res.value.channels)
     else asked)
  }

  /** The lookup part of `get_subscriber_emotes`, on the cached channels. */
  function LookupCall(s: FetchState, channel: string): (Outcome<()>, FetchState)
  {
    var found := SubscriberLookup(channel, s.subEmotes);
    (Status(found), if found.Ok? then s.(ttvData := s.ttvData + found.value) else s)
  }

  /** `get_subscriber_emotes` on the state `s`: a refresh first when
      nothing is cached. */
  function SubscriberCall(reply: nat -> Reply, s: FetchState, channel: string): (r: (Outcome<()>, FetchState))
    ensures r.1.requests == (if s.subEmotes.Some? then s.requests else s.requests + [SubscriberUrl])
    ensures s.subEmotes.Some? ==> r.1.subEmotes == s.subEmotes && r.1.ttvTemplate == s.ttvTemplate
  {
    if s.subEmotes.Some? then LookupCall(s, channel)
    else
      var f := RefreshCall(reply, s);
      if f.0.Ok? then LookupCall(f.1, channel) else f
  }

  /** The loop of lines 93-98 of `main` from the state `s`: one
      `get_subscriber_emotes` per channel, in order; a panic ends the
      process, so nothing follows it. */
  function SubscriberCalls(reply: nat -> Reply, s: FetchState, channels: seq<string>)
    : (r: (seq<Outcome<()>>, FetchState))
    ensures |r.0| <= |channels|
    decreases |channels|
  {
    if channels == [] then ([], s)
    else
      var call := SubscriberCall(reply, s, channels[0]);
      if call.0.Panic? then ([Panic], call.1)
      else
        var rest := SubscriberCalls(reply, call.1, channels[1..]);
        ([call.0] + rest.0, rest.1)
  }

  /** The loop of lines 105-110 of `main` from the state `s`. */
  function BttvCalls(reply: nat -> Reply, s: FetchState, channels: seq<string>)
    : (r: (seq<Outcome<()>>, FetchState))
    ensures |r.0| <= |channels|
    decreases |channels|
  {
    if channels == [] then ([], s)
    else
      var call := BttvCall(reply, s, BttvChannelUrl(channels[0]));
      if call.0.Panic? then ([Panic], call.1)
      else
        var rest := BttvCalls(reply, call.1, channels[1..]);
        ([call.0] + rest.0, rest.1)
  }

  /** What a part of the fetch phase logs and leaves: the outcomes of the
      calls that can set `download_ttv`, the subscriber refresh, the
      outcomes of the calls that can set `download_bttv`, and the state. */
  datatype Phase = Phase(ttvLog: seq<Outcome<()>>, refresh: Option<Outcome<()>>,
                         bttvLog: seq<Outcome<()>>, after: FetchState)

  predicate Panicked(p: Phase)
  {
    Panic in p.ttvLog || p.refresh == Some(Panic) || Panic in p.bttvLog
  }

  /** Lines 76-88 of `main` from the state `s`. */
  function Globals(config: Config, reply: nat -> Reply, s: FetchState): Phase
  {
    var t := GlobalTtvCall(reply, s);
    if config.globalTtv && t.0.Panic? then Phase([Panic], None, [], t.1)
    else
      var ttvLog := if config.globalTtv then [t.0] else [];
      var mid := if config.globalTtv then t.1 else s;
      var b := BttvCall(reply, mid, BttvGlobalUrl);
      if config.globalBttv then Phase(ttvLog, None, [b.0], b.1) else Phase(ttvLog, None, [], mid)
  }

  /** Lines 90-111 of `main` from the state `s`. */
  function Channels(config: Config, reply: nat -> Reply, s: FetchState): Phase
  {
    var f := RefreshCall(reply, s);
    var twitch :=
      if config.ttvChannels == [] then Phase([], None, [], s)
      else if f.0.Ok? then
        var run := SubscriberCalls(reply, f.1, config.ttvChannels);
        Phase(run.0, Some(f.0), [], run.1)
      else Phase([], Some(f.0), [], f.1);
    if Panicked(twitch) then twitch
    else
      var b := BttvCalls(reply, twitch.after, config.bttvChannels);
      twitch.(bttvLog := b.0, after := b.1)
  }

  /** Lines 76-111 of `main` from the state `s`, once the directory exists. */
  function FetchRun(config: Config, reply: nat -> Reply, s: FetchState): Phase
  {
    var g := Globals(config, reply, s);
    if Panicked(g) then g
    else
      var c := Channels(config, reply, g.after);
      Phase(g.ttvLog + c.ttvLog, c.refresh, g.bttvLog + c.bttvLog, c.after)
  }

  // ---------------------------------------------------------------------
  // What the fetch phase guarantees
  // ---------------------------------------------------------------------

  /** The requests for the two global catalogs, in order. */
  function GlobalUrls(config: Config): seq<string>
  {
    (if config.globalTtv then [GlobalUrl] else [])
    + (if config.globalBttv then [BttvGlobalUrl] else [])
  }

  /** The request that refreshes the subscriber data, if any. */
  function RefreshUrls(config: Config): seq<string>
  {
    if config.ttvChannels != [] then [SubscriberUrl] else []
  }

  /** The requests made before the channel loops, in order. */
  function Prelude(config: Config): seq<string>
  {
    GlobalUrls(config) + RefreshUrls(config)
  }

  /** The BetterTTV channel requests, in order. */
  function BttvChannelUrls(channels: seq<string>): (r: seq<string>)
    ensures |r| == |channels|
    ensures forall k | 0 <= k < |channels| :: r[k] == BttvChannelUrl(channels[k])
  {
    if channels == [] then []
    else BttvChannelUrls(channels[..|channels| - 1]) + [BttvChannelUrl(channels[|channels| - 1])]
  }

  /** `BttvChannelUrls` is defined from the back; `BttvCallsRequests`
      walks the channels from the front and needs this view of it, which
      Dafny only finds by unfolding the definition once more. */
  lemma BttvChannelUrlsCons(channels: seq<string>)
    requires channels != []
    ensures BttvChannelUrls(channels) == [BttvChannelUrl(channels[0])] + BttvChannelUrls(channels[1..])
  {
  }

  /** The global calls: one request per configured catalog, in order, and
      the logged outcome of each is that of its own reply. */
  lemma GlobalsExact(config: Config, reply: nat -> Reply, s: FetchState)
    ensures var g := Globals(config, reply, s);
            && g.refresh == None
            && g.ttvLog == (if config.globalTtv then [Status(ResolveGlobal(DownloadJson(reply(|s.requests|))))] else [])
            && (!Panicked(g) ==>
                  && g.bttvLog == (if config.globalBttv
                                   then [Status(ResolveBttv(DownloadJson(reply(|s.requests| + |g.ttvLog|))))]
                                   else [])
                  && g.after.requests == s.requests + GlobalUrls(config))
  {
  }

  /** The Twitch channel loop ends at its first panic and otherwise makes
      one call per channel. */
  lemma {:induction false} SubscriberCallsLog(reply: nat -> Reply, s: FetchState, channels: seq<string>)
    ensures var r := SubscriberCalls(reply, s, channels).0;
            && (Panic !in r ==> |r| == |channels|)
            && (Panic in r ==> r[|r| - 1] == Panic && Panic !in r[..|r| - 1])
    decreases |channels|
  {
    if channels != [] {
      var call := SubscriberCall(reply, s, channels[0]);
      var r := SubscriberCalls(reply, s, channels).0;
      if call.0.Panic? {
        assert r[..0] == [];
      } else {
        SubscriberCallsLog(reply, call.1, channels[1..]);
        var rest := SubscriberCalls(reply, call.1, channels[1..]).0;
        assert r == [call.0] + rest;
        if Panic in r {
          assert Panic in rest;
          assert r[..|r| - 1] == [call.0] + rest[..|rest| - 1];
        }
      }
    }
  }

  /** All the Twitch channel loop ever requests is the subscriber URL,
      at most once per channel. */
  lemma {:induction false} SubscriberCallsRequests(reply: nat -> Reply, s: FetchState, channels: seq<string>)
    ensures var q := SubscriberCalls(reply, s, channels).1.requests;
            && |s.requests| <= |q| <= |s.requests| + |channels|
            && q[..|s.requests|] == s.requests
            && forall k | |s.requests| <= k < |q| :: q[k] == SubscriberUrl
    decreases |channels|
  {
    if channels != [] {
      var call := SubscriberCall(reply, s, channels[0]);
      var mid := call.1.requests;
      if !call.0.Panic? {
        SubscriberCallsRequests(reply, call.1, channels[1..]);
        var q := SubscriberCalls(reply, s, channels).1.requests;
        assert q == SubscriberCalls(reply, call.1, channels[1..]).1.requests;
        assert q[..|mid|] == mid;
        assert q[..|s.requests|] == mid[..|s.requests|];
      }
    }
  }

  /** With the subscriber data cached, the Twitch channel loop makes no
      request and keeps the cache and the template: lookup k is exactly
      `SubscriberLookup` of channel k on the cached channels. */
  lemma {:induction false} SubscriberCallsCached(reply: nat -> Reply, s: FetchState, channels: seq<string>)
    requires s.subEmotes.Some?
    ensures var r := SubscriberCalls(reply, s, channels);
            && r.1.requests == s.requests && r.1.subEmotes == s.subEmotes && r.1.ttvTemplate == s.ttvTemplate
            && forall k | 0 <= k < |r.0| :: r.0[k] == Status(SubscriberLookup(channels[k], s.subEmotes))
    decreases |channels|
  {
    if channels != [] {
      var call := SubscriberCall(reply, s, channels[0]);
      if !call.0.Panic? {
        SubscriberCallsCached(reply, call.1, channels[1..]);
        var rest := SubscriberCalls(reply, call.1, channels[1..]);
        var r := SubscriberCalls(reply, s, channels);
        forall k | 0 <= k < |r.0|
          ensures r.0[k] == Status(SubscriberLookup(channels[k], s.subEmotes))
        {
          if k > 0 {
            assert r.0[k] == rest.0[k - 1] && channels[1..][k - 1] == channels[k];
          }
        }
      }
    }
  }

  /** The BetterTTV channel loop ends at its first panic and otherwise
      makes one call per channel. */
  lemma {:induction false} BttvCallsLog(reply: nat -> Reply, s: FetchState, channels: seq<string>)
    ensures var r := BttvCalls(reply, s, channels).0;
            && (Panic !in r ==> |r| == |channels|)
            && (Panic in r ==> r[|r| - 1] == Panic && Panic !in r[..|r| - 1])
    decreases |channels|
  {
    if channels != [] {
      var call := BttvCall(reply, s, BttvChannelUrl(channels[0]));
      var r := BttvCalls(reply, s, channels).0;
      if call.0.Panic? {
        assert r[..0] == [];
      } else {
        BttvCallsLog(reply, call.1, channels[1..]);
        var rest := BttvCalls(reply, call.1, channels[1..]).0;
        assert r == [call.0] + rest;
        if Panic in r {
          assert Panic in rest;
          assert r[..|r| - 1] == [call.0] + rest[..|rest| - 1];
        }
      }
    }
  }

  /** Call k of the BetterTTV channel loop reports what its own reply, the
      k-th from the start of the loop, resolves to. */
  lemma {:induction false} BttvCallsReplies(reply: nat -> Reply, s: FetchState, channels: seq<string>)
    ensures forall k | 0 <= k < |BttvCalls(reply, s, channels).0| ::
              BttvCalls(reply, s, channels).0[k] == Status(ResolveBttv(DownloadJson(reply(|s.requests| + k))))
    decreases |channels|
  {
    if channels != [] {
      var call := BttvCall(reply, s, BttvChannelUrl(channels[0]));
      if !call.0.Panic? {
        BttvCallsReplies(reply, call.1, channels[1..]);
        var r := BttvCalls(reply, s, channels).0;
        var rest := BttvCalls(reply, call.1, channels[1..]).0;
        assert r == [call.0] + rest;
        forall k | 0 <= k < |r|
          ensures r[k] == Status(ResolveBttv(DownloadJson(reply(|s.requests| + k))))
        {
          if k == 0 {
            assert r[0] == call.0;
          } else {
            assert |call.1.requests| + (k - 1) == |s.requests| + k;
            assert r[k] == rest[k - 1];
          }
        }
      }
    }
  }

  /** Call k of the BetterTTV channel loop requests channel k's URL. */
  lemma {:induction false} BttvCallsRequests(reply: nat -> Reply, s: FetchState, channels: seq<string>)
    ensures var r := BttvCalls(reply, s, channels);
            r.1.requests == s.requests + BttvChannelUrls(channels[..|r.0|])
    decreases |channels|
  {
    if channels == [] {
      assert channels[..0] == [];
    } else {
      var url := BttvChannelUrl(channels[0]);
      var call := BttvCall(reply, s, url);
      var r := BttvCalls(reply, s, channels);
      if call.0.Panic? {
        assert channels[..1] == [channels[0]];
        assert BttvChannelUrls([channels[0]]) == [url];
      } else {
        var tail := channels[1..];
        BttvCallsRequests(reply, call.1, tail);
        var rest := BttvCalls(reply, call.1, tail);
        var n := |rest.0|;
        assert |r.0| == n + 1;
        assert channels[..n + 1][1..] == tail[..n];
        BttvChannelUrlsCons(channels[..n + 1]);
        AppendAssociative(s.requests, [url], BttvChannelUrls(tail[..n]));
      }
    }
  }

  /** One more turn of the loop: the run from channel `i` on is this
      channel's call followed by the run from channel `i + 1` on. */
  lemma SubscriberCallsAdvance(reply: nat -> Reply, cur: FetchState, channels: seq<string>, i: nat,
                    log: seq<Outcome<()>>)
    requires i < |channels|
    ensures var call := SubscriberCall(reply, cur, channels[i]);
            var rest := SubscriberCalls(reply, cur, channels[i..]);
            var next := SubscriberCalls(reply, call.1, channels[i + 1..]);
            && (call.0.Panic? ==> (log + rest.0, rest.1) == (log + [Panic], call.1))
            && (!call.0.Panic? ==> (log + rest.0, rest.1) == ((log + [call.0]) + next.0, next.1))
  {
    assert channels[i..][0] == channels[i] && channels[i..][1..] == channels[i + 1..];
    var call := SubscriberCall(reply, cur, channels[i]);
    if !call.0.Panic? {
      var next := SubscriberCalls(reply, call.1, channels[i + 1..]);
      assert log + ([call.0] + next.0) == (log + [call.0]) + next.0;
    }
  }

  /** One more turn of the loop: the run from channel `i` on is this
      channel's call followed by the run from channel `i + 1` on. */
  lemma BttvCallsAdvance(reply: nat -> Reply, cur: FetchState, channels: seq<string>, i: nat,
                    log: seq<Outcome<()>>)
    requires i < |channels|
    ensures var call := BttvCall(reply, cur, BttvChannelUrl(channels[i]));
            var rest := BttvCalls(reply, cur, channels[i..]);
            var next := BttvCalls(reply, call.1, channels[i + 1..]);
            && (call.0.Panic? ==> (log + rest.0, rest.1) == (log + [Panic], call.1))
            && (!call.0.Panic? ==> (log + rest.0, rest.1) == ((log + [call.0]) + next.0, next.1))
  {
    assert channels[i..][0] == channels[i] && channels[i..][1..] == channels[i + 1..];
    var call := BttvCall(reply, cur, BttvChannelUrl(channels[i]));
    if !call.0.Panic? {
      var next := BttvCalls(reply, call.1, channels[i + 1..]);
      assert log + ([call.0] + next.0) == (log + [call.0]) + next.0;
    }
  }

  /** Whether the refreshed subscriber data carries a `channels` value. */
  predicate HasChannels(res: Outcome<SubscriberData>)
  {
    res.Ok? && res.value.channels.Some?
  }

  /** The exact request list of the channel phase when the subscriber data
      is not refreshed again: no Twitch channel, a refresh that failed, or
      one that cached the channel map. */
  lemma ChannelsRequests(config: Config, reply: nat -> Reply, s: FetchState)
    requires !Panicked(Channels(config, reply, s))
    ensures var c := Channels(config, reply, s);
            var res := ResolveSubscriber(DownloadJson(reply(|s.requests|)));
            (config.ttvChannels == [] || res.Err? || HasChannels(res)) ==>
              c.after.requests == s.requests + RefreshUrls(config) + BttvChannelUrls(config.bttvChannels)
  {
    var c := Channels(config, reply, s);
    var f := RefreshCall(reply, s);
    var mid := if config.ttvChannels == [] then s
               else if f.0.Ok? then SubscriberCalls(reply, f.1, config.ttvChannels).1
               else f.1;
    if config.ttvChannels != [] && f.0.Ok? && f.1.subEmotes.Some? {
      SubscriberCallsCached(reply, f.1, config.ttvChannels);
    }
    BttvCallsLog(reply, mid, config.bttvChannels);
    BttvCallsRequests(reply, mid, config.bttvChannels);
    assert config.bttvChannels[..|config.bttvChannels|] == config.bttvChannels;
  }

  /** A channel phase that did not panic: one outcome per Twitch channel
      after a successful refresh and one per BetterTTV channel; its first
      request is the single refresh. */
  lemma ChannelsCounts(config: Config, reply: nat -> Reply, s: FetchState)
    requires !Panicked(Channels(config, reply, s))
    ensures var c := Channels(config, reply, s);
            && (c.refresh.Some? <==> config.ttvChannels != [])
            && |c.ttvLog| == (if c.refresh == Some(Ok(())) then |config.ttvChannels| else 0)
            && |c.bttvLog| == |config.bttvChannels|
            && |s.requests| + |RefreshUrls(config)| <= |c.after.requests|
            && c.after.requests[..|s.requests| + |RefreshUrls(config)|] == s.requests + RefreshUrls(config)
  {
    var f := RefreshCall(reply, s);
    var mid := if config.ttvChannels == [] then s
               else if f.0.Ok? then SubscriberCalls(reply, f.1, config.ttvChannels).1
               else f.1;
    var before := s.requests + RefreshUrls(config);
    if config.ttvChannels != [] && f.0.Ok? {
      SubscriberCallsLog(reply, f.1, config.ttvChannels);
      SubscriberCallsRequests(reply, f.1, config.ttvChannels);
      assert f.1.requests == before;
    }
    assert mid.requests[..|before|] == before;
    BttvCallsLog(reply, mid, config.bttvChannels);
    BttvCallsRequests(reply, mid, config.bttvChannels);
    var c := Channels(config, reply, s);
    assert c.after.requests[..|mid.requests|] == mid.requests;
  }

  /** A fetch phase that did not panic: one outcome per configured global
      catalog, one per Twitch channel after a successful refresh and one
      per BetterTTV channel; its first requests are the global ones, then
      the single refresh. */
  lemma FetchRunCounts(config: Config, reply: nat -> Reply, s: FetchState)
    requires !Panicked(FetchRun(config, reply, s))
    ensures var run := FetchRun(config, reply, s);
            && (run.refresh.Some? <==> config.ttvChannels != [])
            && |run.ttvLog| == (if config.globalTtv then 1 else 0)
                               + (if run.refresh == Some(Ok(())) then |config.ttvChannels| else 0)
            && |run.bttvLog| == (if config.globalBttv then 1 else 0) + |config.bttvChannels|
            && |s.requests| + |Prelude(config)| <= |run.after.requests|
            && run.after.requests[..|s.requests| + |Prelude(config)|] == s.requests + Prelude(config)
  {
    var g := Globals(config, reply, s);
    GlobalsExact(config, reply, s);
    var c := Channels(config, reply, g.after);
    ChannelsCounts(config, reply, g.after);
    var run := FetchRun(config, reply, s);
    assert run == Phase(g.ttvLog + c.ttvLog, c.refresh, g.bttvLog + c.bttvLog, c.after);
    AppendAssociative(s.requests, GlobalUrls(config), RefreshUrls(config));
  }

  // ---------------------------------------------------------------------
  // The fetch phase as `main` runs it
  // ---------------------------------------------------------------------

  /** Lines 68-111 of `main`: creates the output directory, fetches what
      the configuration asks for and sets the two download flags. The
      outcome of every call that can set a flag is logged in order; the
      refresh of the subscriber data is logged apart. */
  method Fetch(config: Config, dirCreated: bool, net: Network, ttv: TtvEmoteData, bttv: BttvEmoteData)
    returns (exit: Exit, downloadTtv: bool, downloadBttv: bool,
             ttvLog: seq<Outcome<()>>, refresh: Option<Outcome<()>>, bttvLog: seq<Outcome<()>>)
    modifies net, ttv, bttv
    ensures !dirCreated ==>
              && exit == NoDirectory && StateOf(ttv, bttv, net) == old(StateOf(ttv, bttv, net))
              && !downloadTtv && !downloadBttv && ttvLog == [] && bttvLog == [] && refresh == None
    ensures dirCreated ==>
              var run := FetchRun(config, net.reply, old(StateOf(ttv, bttv, net)));
              && exit != NoDirectory
              && ttvLog == run.ttvLog && refresh == run.refresh && bttvLog == run.bttvLog
              && net.requests == run.after.requests
              && (exit == Completed ==> StateOf(ttv, bttv, net) == run.after)
    ensures exit == Aborted <==> Panic in ttvLog || Panic in bttvLog || refresh == Some(Panic)
    ensures exit != Aborted ==>
              (downloadTtv <==> Ok(()) in ttvLog) && (downloadBttv <==> Ok(()) in bttvLog)
  {
    exit, downloadTtv, downloadBttv := Completed, false, false;
    ttvLog, refresh, bttvLog := [], None, [];
    if !dirCreated {
      exit := NoDirectory;
      return;
    }
    var panicked;
    ttvLog, downloadTtv, bttvLog, downloadBttv, panicked := FetchGlobals(config, net, ttv, bttv);
    if panicked {
      exit := Aborted;
      return;
    }
    var ttvFound, bttvFound, subLog, chanLog;
    refresh, subLog, ttvFound, chanLog, bttvFound, panicked := FetchChannels(config, net, ttv, bttv);
    ttvLog := ttvLog + subLog;
    bttvLog := bttvLog + chanLog;
    downloadTtv := downloadTtv || ttvFound;
    downloadBttv := downloadBttv || bttvFound;
    if panicked {
      exit := Aborted;
    }
  }

  /** Lines 76-88 of `main`: the two global catalogs, each when the
      configuration asks for it. */
  method FetchGlobals(config: Config, net: Network, ttv: TtvEmoteData, bttv: BttvEmoteData)
    returns (ttvLog: seq<Outcome<()>>, ttvFound: bool, bttvLog: seq<Outcome<()>>, bttvFound: bool,
             panicked: bool)
    modifies net, ttv, bttv
    ensures var g := Globals(config, net.reply, old(StateOf(ttv, bttv, net)));
            && ttvLog == g.ttvLog && bttvLog == g.bttvLog && net.requests == g.after.requests
            && (!panicked ==> StateOf(ttv, bttv, net) == g.after)
    ensures panicked <==> Panic in ttvLog || Panic in bttvLog
    ensures (ttvFound <==> Ok(()) in ttvLog) && (bttvFound <==> Ok(()) in bttvLog)
  {
    ttvLog, ttvFound, bttvLog, bttvFound, panicked := [], false, [], false, false;
    if config.globalTtv {
      var r := ttv.GetGlobalEmotes(net);
      ttvLog := [r];
      if r.Panic? {
        panicked := true;
        return;
      }
      if r.Ok? {
        ttvFound := true;
      }
    }
    if config.globalBttv {
      var r := bttv.GetGlobalBttvEmotes(net);
      bttvLog := [r];
      if r.Panic? {
        panicked := true;
        return;
      }
      if r.Ok? {
        bttvFound := true;
      }
    }
  }

  /** Lines 90-111 of `main`: the subscriber data is refreshed once, then
      looked up for every Twitch channel if the refresh succeeded; then
      every BetterTTV channel is fetched. `ttvFound` and `bttvFound` tell
      whether some lookup returned Ok. */
  method FetchChannels(config: Config, net: Network, ttv: TtvEmoteData, bttv: BttvEmoteData)
    returns (refresh: Option<Outcome<()>>, ttvLog: seq<Outcome<()>>, ttvFound: bool,
             bttvLog: seq<Outcome<()>>, bttvFound: bool, panicked: bool)
    modifies net, ttv, bttv
    ensures var c := Channels(config, net.reply, old(StateOf(ttv, bttv, net)));
            && refresh == c.refresh && ttvLog == c.ttvLog && bttvLog == c.bttvLog
            && net.requests == c.after.requests
            && (!panicked ==> StateOf(ttv, bttv, net) == c.after)
    ensures panicked <==> Panic in ttvLog || Panic in bttvLog || refresh == Some(Panic)
    ensures (ttvFound <==> Ok(()) in ttvLog) && (bttvFound <==> Ok(()) in bttvLog)
  {
    refresh, ttvLog, ttvFound, bttvLog, bttvFound, panicked := None, [], false, [], false, false;
    if config.ttvChannels != [] {
      var r := Refresh(ttv, bttv, net);
      refresh := Some(r);
      if r.Panic? {
        panicked := true;
        return;
      }
      if r.Ok? {
        ttvLog, ttvFound, panicked := LookUpTtvChannels(ttv, bttv, config.ttvChannels, net);
        if panicked {
          return;
        }
      }
    }
    bttvLog, bttvFound, panicked := LookUpBttvChannels(ttv, bttv, config.bttvChannels, net);
  }

  /** `update_sub_emote_data`, seen from `main`. */
  method Refresh(ttv: TtvEmoteData, bttv: BttvEmoteData, net: Network) returns (r: Outcome<()>)
    modifies ttv, net
    ensures var call := RefreshCall(net.reply, old(StateOf(ttv, bttv, net)));
            && r == call.0 && net.requests == call.1.requests
            && (!r.Panic? ==> StateOf(ttv, bttv, net) == call.1)
  {
    r := ttv.UpdateSubEmoteData(net);
  }

  /** The loop of lines 93-98 of `main`: one subscriber lookup per
      configured channel, in order, until a lookup panics. `found` tells
      whether some lookup returned Ok. */
  method LookUpTtvChannels(ttv: TtvEmoteData, bttv: BttvEmoteData, channels: seq<string>, net: Network)
    returns (log: seq<Outcome<()>>, found: bool, panicked: bool)
    modifies ttv, net
    ensures var run := SubscriberCalls(net.reply, old(StateOf(ttv, bttv, net)), channels);
            && log == run.0 && net.requests == run.1.requests
            && (!panicked ==> StateOf(ttv, bttv, net) == run.1)
    ensures panicked <==> Panic in log
    ensures found <==> Ok(()) in log
  {
    log, found, panicked := [], false, false;
    ghost var cur := StateOf(ttv, bttv, net);
    ghost var run := SubscriberCalls(net.reply, cur, channels);
    var i := 0;
    assert channels[0..] == channels;
    assert log + run.0 == run.0;
    while i < |channels| && !panicked
      invariant i <= |channels|
      invariant panicked <==> Panic in log
      invariant found <==> Ok(()) in log
      invariant net.requests == cur.requests
      invariant !panicked ==> StateOf(ttv, bttv, net) == cur
      invariant panicked ==> run == (log, cur)
      invariant !panicked ==>
                  run == (log + SubscriberCalls(net.reply, cur, channels[i..]).0, SubscriberCalls(net.reply, cur, channels[i..]).1)
    {
      SubscriberCallsAdvance(net.reply, cur, channels, i, log);
      var r := LookUpOne(ttv, bttv, channels[i], net);
      cur := SubscriberCall(net.reply, cur, channels[i]).1;
      if r.Panic? {
        panicked := true;
      }
      log := log + [r];
      if r.Ok? {
        found := true;
      }
      i := i + 1;
    }
    if !panicked {
      assert channels[i..] == [];
      assert log + [] == log;
    }
  }

  /** One call of `get_subscriber_emotes`, seen from `main`. */
  method LookUpOne(ttv: TtvEmoteData, bttv: BttvEmoteData, channel: string, net: Network)
    returns (r: Outcome<()>)
    modifies ttv, net
    ensures var call := SubscriberCall(net.reply, old(StateOf(ttv, bttv, net)), channel);
            && r == call.0 && net.requests == call.1.requests
            && (!r.Panic? ==> StateOf(ttv, bttv, net) == call.1)
  {
    r := ttv.GetSubscriberEmotes(channel, net);
  }

  /** One call of `get_channel_bttv_emotes`, seen from `main`. */
  method CallBttvChannel(ttv: TtvEmoteData, bttv: BttvEmoteData, channel: string, net: Network)
    returns (r: Outcome<()>)
    modifies bttv, net
    ensures var call := BttvCall(net.reply, old(StateOf(ttv, bttv, net)), BttvChannelUrl(channel));
            && r == call.0 && net.requests == call.1.requests
            && (!r.Panic? ==> StateOf(ttv, bttv, net) == call.1)
  {
    r := bttv.GetChannelBttvEmotes(channel, net);
  }

  /** The loop of lines 105-110 of `main`: one BetterTTV channel request
      per configured channel, in order, until one panics. */
  method LookUpBttvChannels(ttv: TtvEmoteData, bttv: BttvEmoteData, channels: seq<string>, net: Network)
    returns (log: seq<Outcome<()>>, found: bool, panicked: bool)
    modifies bttv, net
    ensures var run := BttvCalls(net.reply, old(StateOf(ttv, bttv, net)), channels);
            && log == run.0 && net.requests == run.1.requests
            && (!panicked ==> StateOf(ttv, bttv, net) == run.1)
    ensures panicked <==> Panic in log
    ensures found <==> Ok(()) in log
  {
    log, found, panicked := [], false, false;
    ghost var cur := StateOf(ttv, bttv, net);
    ghost var run := BttvCalls(net.reply, cur, channels);
    var i := 0;
    assert channels[0..] == channels;
    assert log + run.0 == run.0;
    while i < |channels| && !panicked
      invariant i <= |channels|
      invariant panicked <==> Panic in log
      invariant found <==> Ok(()) in log
      invariant net.requests == cur.requests
      invariant !panicked ==> StateOf(ttv, bttv, net) == cur
      invariant panicked ==> run == (log, cur)
      invariant !panicked ==>
                  run == (log + BttvCalls(net.reply, cur, channels[i..]).0, BttvCalls(net.reply, cur, channels[i..]).1)
    {
      BttvCallsAdvance(net.reply, cur, channels, i, log);
      var r := CallBttvChannel(ttv, bttv, channels[i], net);
      cur := BttvCall(net.reply, cur, BttvChannelUrl(channels[i])).1;
      if r.Panic? {
        panicked := true;
      }
      log := log + [r];
      if r.Ok? {
        found := true;
      }
      i := i + 1;
    }
    if !panicked {
      assert channels[i..] == [];
      assert log + [] == log;
    }
  }

  /** Lines 113-120 of `main`: saves the Twitch catalog when its flag is
      set, then the BetterTTV one, each from the template and the records
      its resolver left. A completed run empties the list it was given; a
      panic while building the TLS client of a call ends the program, so
      nothing runs after it. */
  method Download(downloadTtv: bool, downloadBttv: bool, ttv: TtvEmoteData, bttv: BttvEmoteData,
                  ws: Workspace, ttvTls: bool, ttvOpen: ManifestOpen, ttvIo: nat -> Transfer,
                  bttvTls: bool, bttvOpen: ManifestOpen, bttvIo: nat -> Transfer)
    returns (ttvSaved: Option<Saved>, bttvSaved: Option<Saved>)
    modifies ttv, bttv, ws
    ensures ttvSaved.Some? <==> downloadTtv
    ensures bttvSaved.Some? <==> downloadBttv && ttvSaved != Some(TlsPanic)
    ensures ttv.template == old(ttv.template) && ttv.subEmotes == old(ttv.subEmotes)
    ensures bttv.template == old(bttv.template)
    ensures ttv.data == (if ttvSaved.Some? && ttvSaved.value.Finished? then [] else old(ttv.data))
    ensures bttv.data == (if bttvSaved.Some? && bttvSaved.value.Finished? then [] else old(bttv.data))
    ensures var first := SaveRun(old(ttv.template), old(DirOf(ws)), ttvTls, ttvOpen, old(ttv.data), ttvIo);
            var between := if downloadTtv then first.1 else old(DirOf(ws));
            var second := SaveRun(old(bttv.template), between, bttvTls, bttvOpen, old(bttv.data), bttvIo);
            && ttvSaved == (if downloadTtv then Some(first.0) else None)
            && bttvSaved == (if bttvSaved.Some? then Some(second.0) else None)
            && DirOf(ws) == (if bttvSaved.Some? then second.1 else between)
  {
    ttvSaved, bttvSaved := None, None;
    if downloadTtv {
      var remaining, saved := SaveImages(ttv.template, ttv.data, ws, ttvTls, ttvOpen, ttvIo);
      ttv.data := remaining;
      ttvSaved := Some(saved);
      if saved == TlsPanic {
        return;
      }
    }
    if downloadBttv {
      var remaining, saved := SaveImages(bttv.template, bttv.data, ws, bttvTls, bttvOpen, bttvIo);
      bttv.data := remaining;
      bttvSaved := Some(saved);
    }
  }

  /** Regroups a concatenation. `SaveAllFresh`, `BttvCallsRequests` and
      `FetchRunCounts` call it to keep the regrouping out of their large
      contexts; asserted inline, it runs out of resource in the first two. */
  lemma AppendAssociative<T>(a: seq<T>, b: seq<T>, c: seq<T>)
    ensures a + (b + c) == (a + b) + c
  {
  }
}
