/** The per-camera stream artifacts (src/modules/camerasOnline/camerasOnline.service.ts):
    a bash script that runs ffmpeg on the camera's RTSP URL, a live directory
    for the HLS playlist and a systemd unit that runs the script, written,
    rewritten and removed on a host whose filesystem and `systemctl` log are
    modelled as values. */
module Artifacts {
  import opened Optional
  import opened Text
  import opened Envelope
  import opened FileSystem

  // ---------------------------------------------------------------------
  // Paths and texts
  // ---------------------------------------------------------------------

  const BASE_PATH_SH: string := "/var/www/cameras/cams_sh"
  const BASE_PATH_LIVE: string := "/var/www/cameras/live"
  const BASE_PATH_SERVICE: string := "/etc/systemd/system"

  function ScriptPath(id: string): string {
    BASE_PATH_SH + "/camOnline-" + id + ".sh"
  }

  function LivePath(id: string): string {
    BASE_PATH_LIVE + "/" + id
  }

  function PlaylistPath(id: string): string {
    LivePath(id) + "/stream.m3u8"
  }

  function UnitPath(id: string): string {
    BASE_PATH_SERVICE + "/camOnline-" + id + ".service"
  }

  function UnitName(id: string): string {
    "camOnline-" + id + ".service"
  }

  // The two long lines are written in short pieces so that the verifier can
  // tell which characters they contain.
  const NOTIFY_PREFIX: string :=
    "    NOTIFY_" + "URL=\"http:" + "//localhost" + ":3000/api/" + "v1/cameras/" + "cameraFail/"
  const CURL_LINE: string :=
    "      curl" + " -X PATCH" + " -H \"Content" + "-Type: appl" + "ication/json\""
    + " -d \"{\"mess" + "age\": \"$mes" + "sage\"}\" \"$N" + "OTIFY_URL\""
  const FFMPEG_OPTIONS: seq<string> := [
    "        -s 854x480 \\",
    "        -c:v libx264 \\",
    "        -b:v 800k \\",
    "        -tune zerolatency \\",
    "        -preset ultrafast \\",
    "        -hls_time 5 \\",
    "        -hls_list_size 1 \\",
    "        -hls_flags delete_segments \\" ]
  const RETRY_LINES: seq<string> := [
    "        sleep 5",
    "      else",
    "        break",
    "      fi",
    "    done" ]

  function Quoted(s: string): string {
    "\"" + s + "\""
  }

  /** The line of the failure notice. */
  function NoticeLine(indent: string, rtspUrl: string): string {
    indent + "send_notification \"FFmpeg failed to start streaming from " + rtspUrl + ".\""
  }

  /** The nine lines before the ffmpeg line: the notify URL naming the
      camera and the `send_notification` helper. */
  function PreambleLines(id: string): (lines: seq<string>)
    ensures |lines| == 9
  {
    [ "#!/bin/bash",
      NOTIFY_PREFIX + id + "\"",
      "    ",
      "    send_notification() {",
      "      local message=\"$1\"",
      CURL_LINE,
      "    }",
      "    ",
      "    while true; do" ]
  }

  /** The line that starts ffmpeg on `arg`. */
  function FfmpegLine(arg: string): string {
    "      " + (HEAD + arg + TAIL)
  }

  /** The seventeen lines after it: the encoder options, the playlist, and
      the retry loop whose failure notice names the URL again. */
  function TrailerLines(id: string, rtspUrl: string): (lines: seq<string>)
    ensures |lines| == 17
  {
    FFMPEG_OPTIONS
    + [ "        " + Quoted(PlaylistPath(id)),
        "      ",
        "      if [ $? -ne 0 ]; then",
        NoticeLine("        ", rtspUrl) ]
    + RETRY_LINES
  }

  /** Lines of the generated script; ffmpeg runs on the quoted URL. */
  function ScriptLines(id: string, rtspUrl: string): (lines: seq<string>)
    ensures |lines| == 27
  {
    PreambleLines(id) + [FfmpegLine(Quoted(rtspUrl))] + TrailerLines(id, rtspUrl)
  }

  function Script(id: string, rtspUrl: string): string {
    JoinLines(ScriptLines(id, rtspUrl))
  }

  /** The unit; `user` is the `USER` of the server's environment. */
  function UnitLines(id: string, user: string): (lines: seq<string>)
    ensures |lines| == 10
  {
    [ "[Unit]",
      "      Description=Servicio para iniciar el script cameraOnline-" + id + ".sh",
      "      After=network.target",
      "      [Service]",
      "      Type=simple",
      "      ExecStart=/bin/bash " + ScriptPath(id),
      "      Restart=on-failure",
      "      User=" + user,
      "      [Install]",
      "      WantedBy=multi-user.target" ]
  }

  function Unit(id: string, user: string): string {
    JoinLines(UnitLines(id, user))
  }

  /** Camera ids are UUIDs: hexadecimal digits and dashes. */
  predicate HexId(id: string) {
    forall i :: 0 <= i < |id| ==> id[i] in "0123456789abcdefABCDEF-"
  }

  // ---------------------------------------------------------------------
  // The URL substitution: `s.replace(/ffmpeg -i (.*) \\/, "ffmpeg -i " + url + " \\")`
  // ---------------------------------------------------------------------

  const HEAD: string := "ffmpeg -i "
  const TAIL: string := " \\"

  /** " \" starts at `j`: a space, then a backslash. */
  predicate StopAt(s: string, j: int) {
    0 <= j && j + 1 < |s| && s[j] == ' ' && s[j + 1] == '\\'
  }

  /** The greedy `(.*) \\`: scanning the rest of the line from `j`, the last
      position where " \" starts (`.` stops at a line terminator). */
  function LastStop(s: string, j: nat, best: Option<nat>): (r: Option<nat>)
    requires j <= |s|
    requires best.Some? ==> StopAt(s, best.value)
    ensures r.Some? ==> OccursAt(s, TAIL, r.value) && (r == best || j <= r.value)
    decreases |s| - j
  {
    if j == |s| || IsLineTerminator(s[j]) then
      assert best.Some? ==> s[best.value..best.value + 2] == TAIL;
      best
    else LastStop(s, j + 1, if StopAt(s, j) then Some(j) else best)
  }

  /** Where a match starting at `i` ends, if one does. */
  function MatchAt(s: string, i: nat): (r: Option<nat>)
    ensures r.Some? ==> OccursAt(s, HEAD, i) && i + |HEAD| + |TAIL| <= r.value <= |s|
  {
    if OccursAt(s, HEAD, i) then
      match LastStop(s, i + |HEAD|, None)
      case None => None
      case Some(j) => Some(j + |TAIL|)
    else None
  }

  /** The leftmost position from `i` on where a match starts. */
  function FirstMatch(s: string, i: nat): (r: Option<nat>)
    ensures r.Some? ==> i <= r.value && MatchAt(s, r.value).Some?
    ensures r.Some? ==> forall k :: i <= k < r.value ==> MatchAt(s, k).None?
    ensures r.None? ==> forall k :: i <= k < |s| ==> MatchAt(s, k).None?
    decreases |s| - i
  {
    if i >= |s| then None
    else if MatchAt(s, i).Some? then Some(i)
    else FirstMatch(s, i + 1)
  }

  /** The first match, and only it, becomes "ffmpeg -i {url} \"; without a
      match the text is unchanged. */
  function ReplaceUrl(s: string, url: string): (r: string)
    ensures FirstMatch(s, 0).None? ==> r == s
    ensures FirstMatch(s, 0).Some? ==>
      var i := FirstMatch(s, 0).value; var e := MatchAt(s, i).value;
      r == s[..i] + HEAD + url + TAIL + s[e..]
  {
    match FirstMatch(s, 0)
    case None => s
    case Some(i) => s[..i] + HEAD + url + TAIL + s[MatchAt(s, i).value..]
  }

  /** The text before line `lines[|pre|]` when the lines are joined. */
  function Lead(pre: seq<string>): string {
    if pre == [] then "" else JoinLines(pre) + "\n"
  }

  /** The text after the line. */
  function Trail(post: seq<string>): string {
    if post == [] then "" else "\n" + JoinLines(post)
  }

  lemma {:induction false} JoinAround(pre: seq<string>, line: string, post: seq<string>)
    ensures JoinLines(pre + [line] + post) == Lead(pre) + line + Trail(post)
    decreases |pre|
  {
    var all := pre + [line] + post;
    if pre == [] {
      assert all == [line] + post;
      if post != [] {
        assert all[1..] == post;
      }
    } else {
      var rest := pre[1..] + [line] + post;
      assert all[0] == pre[0] && all[1..] == rest;
      assert JoinLines(all) == pre[0] + "\n" + JoinLines(rest);
      JoinAround(pre[1..], line, post);
      assert Lead(pre) == pre[0] + "\n" + Lead(pre[1..]) by {
        if |pre| > 1 {
          assert JoinLines(pre) == pre[0] + "\n" + JoinLines(pre[1..]);
        }
      }
    }
  }

  /** `sub` cannot straddle a line break it does not contain. */
  lemma NoStraddle(a: string, b: string, sub: string)
    requires !Contains(a, sub) && !Contains(b, sub) && '\n' !in sub
    ensures !Contains(a + "\n" + b, sub)
  {
    var s := a + "\n" + b;
    forall i | 0 <= i <= |s| - |sub| ensures !OccursAt(s, sub, i) {
      if i + |sub| <= |a| {
        assert a[i..i + |sub|] == s[i..i + |sub|];
        assert !OccursAt(a, sub, i);
      } else if i > |a| {
        assert b[i - |a| - 1..i - |a| - 1 + |sub|] == s[i..i + |sub|];
        assert !OccursAt(b, sub, i - |a| - 1);
      } else {
        assert s[i..i + |sub|][|a| - i] == '\n';
        assert '\n' in s[i..i + |sub|];
      }
    }
  }

  lemma {:induction false} NoneInLines(lines: seq<string>, sub: string)
    requires forall l :: l in lines ==> !Contains(l, sub)
    requires '\n' !in sub && sub != []
    ensures !Contains(JoinLines(lines), sub)
    decreases |lines|
  {
    if |lines| > 1 {
      NoneInLines(lines[1..], sub);
      NoStraddle(lines[0], JoinLines(lines[1..]), sub);
    } else if |lines| == 1 {
      assert lines[0] in lines;
    } else {
      assert JoinLines(lines) == "";
    }
  }

  /** From `j` on, a stretch without line terminators that ends in " \" at the
      end of its line: the greedy scan stops at that last " \". */
  lemma {:induction false} LastStopAtEnd(s: string, j: nat, e: nat, best: Option<nat>)
    requires j + 2 <= e <= |s|
    requires best.Some? ==> StopAt(s, best.value)
    requires forall k :: j <= k < e ==> !IsLineTerminator(s[k])
    requires e == |s| || IsLineTerminator(s[e])
    requires s[e - 2] == ' ' && s[e - 1] == '\\'
    ensures LastStop(s, j, best) == Some(e - 2)
    decreases e - j
  {
    var next := if StopAt(s, j) then Some(j) else best;
    if j + 2 < e {
      LastStopAtEnd(s, j + 1, e, next);
    } else {
      assert LastStop(s, j, best) == LastStop(s, j + 1, next);
      assert !StopAt(s, j + 1);
      assert LastStop(s, j + 1, next) == LastStop(s, j + 2, next);
    }
  }

  lemma {:induction false} FirstMatchSkips(s: string, i: nat, k: nat)
    requires i <= k <= |s|
    requires forall m :: i <= m < k ==> !OccursAt(s, HEAD, m)
    ensures FirstMatch(s, i) == FirstMatch(s, k)
    decreases k - i
  {
    if i < k {
      FirstMatchSkips(s, i + 1, k);
    }
  }

  /** No match starts in the lines before, nor in the indentation. */
  lemma NoHeadBefore(pre: seq<string>, indent: string, x: string, trail: string)
    requires forall l :: l in pre ==> !Contains(l, HEAD)
    requires forall k :: 0 <= k < |indent| ==> indent[k] == ' '
    ensures forall m :: 0 <= m < |Lead(pre)| + |indent| ==> !OccursAt(Lead(pre) + indent + x + trail, HEAD, m)
  {
    var s := Lead(pre) + indent + x + trail;
    var p := |Lead(pre)|;
    forall m | 0 <= m < p + |indent| ensures !OccursAt(s, HEAD, m) {
      if m + |HEAD| <= |s| {
        if m >= p {
          assert s[m..m + |HEAD|][0] == indent[m - p];
        } else {
          NoneInLines(pre, HEAD);
          var J := JoinLines(pre);
          assert Lead(pre) == J + "\n";
          if m + |HEAD| <= |J| {
            assert J[m..m + |HEAD|] == s[m..m + |HEAD|];
            assert !OccursAt(J, HEAD, m);
          } else {
            assert s[m..m + |HEAD|][|J| - m] == '\n';
            assert '\n' in s[m..m + |HEAD|];
          }
        }
      }
    }
  }

  /** A match at the start of "ffmpeg -i {arg} \" runs to the end of the line. */
  lemma MatchWholeLine(lead: string, arg: string, trail: string)
    requires !HasLineTerminator(arg)
    requires trail == [] || trail[0] == '\n'
    ensures MatchAt(lead + (HEAD + arg + TAIL) + trail, |lead|) == Some(|lead| + |HEAD + arg + TAIL|)
  {
    var line := HEAD + arg + TAIL;
    var s := lead + line + trail;
    var start := |lead|;
    assert OccursAt(s, HEAD, start) by {
      Middle(lead, line, trail);
      assert line[..|HEAD|] == HEAD;
      assert s[start..start + |HEAD|] == s[start..start + |line|][..|HEAD|];
    }
    NoBreakInLine(arg);
    assert line[|line| - 2] == ' ' && line[|line| - 1] == '\\';
    ScanToLineEnd(lead, line, trail);
  }

  lemma Middle(lead: string, x: string, trail: string)
    ensures (lead + x + trail)[|lead|..|lead| + |x|] == x
  {
  }

  /** After the "ffmpeg -i " opening `line`, the greedy scan stops at the
      " \" ending the line. */
  lemma ScanToLineEnd(lead: string, line: string, trail: string)
    requires |HEAD| + 2 <= |line|
    requires forall k :: |HEAD| <= k < |line| ==> !IsLineTerminator(line[k])
    requires line[|line| - 2] == ' ' && line[|line| - 1] == '\\'
    requires trail == [] || trail[0] == '\n'
    ensures LastStop(lead + line + trail, |lead| + |HEAD|, None) == Some(|lead| + |line| - 2)
  {
    LineChars(lead, line, trail);
    LastStopAtEnd(lead + line + trail, |lead| + |HEAD|, |lead| + |line|, None);
  }

  /** The characters of `line` seen inside `lead + line + trail`. */
  lemma LineChars(lead: string, line: string, trail: string)
    requires |HEAD| + 2 <= |line|
    requires forall k :: |HEAD| <= k < |line| ==> !IsLineTerminator(line[k])
    requires line[|line| - 2] == ' ' && line[|line| - 1] == '\\'
    requires trail == [] || trail[0] == '\n'
    ensures var s := lead + line + trail; var e := |lead| + |line|;
      && (forall k :: |lead| + |HEAD| <= k < e ==> !IsLineTerminator(s[k]))
      && s[e - 2] == ' ' && s[e - 1] == '\\'
      && (e == |s| || IsLineTerminator(s[e]))
  {
    var s := lead + line + trail;
    var e := |lead| + |line|;
    forall k | |lead| + |HEAD| <= k < e ensures !IsLineTerminator(s[k]) {
      assert s[k] == line[k - |lead|];
    }
    assert s[e - 2] == line[|line| - 2] && s[e - 1] == line[|line| - 1];
    if trail != [] {
      assert s[e] == trail[0];
    }
  }

  lemma NoBreakInLine(arg: string)
    requires !HasLineTerminator(arg)
    ensures forall k :: |HEAD| <= k < |HEAD + arg + TAIL| ==> !IsLineTerminator((HEAD + arg + TAIL)[k])
  {
    var line := HEAD + arg + TAIL;
    forall k | |HEAD| <= k < |line| ensures !IsLineTerminator(line[k]) {
      if k < |HEAD| + |arg| {
        assert line[k] == arg[k - |HEAD|];
      }
    }
  }

  /** The first match is the one right after `lead`, and runs to the end of
      its line. */
  lemma FirstMatchIsLine(lead: string, arg: string, trail: string)
    requires forall m :: 0 <= m < |lead| ==> !OccursAt(lead + (HEAD + arg + TAIL) + trail, HEAD, m)
    requires !HasLineTerminator(arg)
    requires trail == [] || trail[0] == '\n'
    ensures var s := lead + (HEAD + arg + TAIL) + trail;
      FirstMatch(s, 0) == Some(|lead|) && MatchAt(s, |lead|) == Some(|lead| + |HEAD + arg + TAIL|)
  {
    var s := lead + (HEAD + arg + TAIL) + trail;
    FirstMatchSkips(s, 0, |lead|);
    MatchWholeLine(lead, arg, trail);
  }

  /** The substitution on a text whose first match starts right after
      `lead` and runs over "ffmpeg -i {arg} \" to the end of its line. */
  lemma ReplaceFirstLine(lead: string, arg: string, trail: string, url: string)
    requires forall m :: 0 <= m < |lead| ==> !OccursAt(lead + (HEAD + arg + TAIL) + trail, HEAD, m)
    requires !HasLineTerminator(arg)
    requires trail == [] || trail[0] == '\n'
    ensures ReplaceUrl(lead + (HEAD + arg + TAIL) + trail, url) == lead + (HEAD + url + TAIL) + trail
  {
    var line := HEAD + arg + TAIL;
    FirstMatchIsLine(lead, arg, trail);
    SliceAround(lead, line, trail);
    Regroup(lead, HEAD, url, TAIL, trail);
  }

  lemma Regroup(a: string, b: string, c: string, d: string, e: string)
    ensures a + b + c + d + e == a + (b + c + d) + e
  {
  }

  lemma SliceAround(lead: string, x: string, trail: string)
    ensures (lead + x + trail)[..|lead|] == lead
    ensures (lead + x + trail)[|lead| + |x|..] == trail
  {
    assert (lead + x + trail)[..|lead|] == lead;
    assert (lead + x + trail)[|lead| + |x|..] == trail;
  }

  lemma JoinedLine(pre: seq<string>, indent: string, x: string, post: seq<string>)
    ensures JoinLines(pre + [indent + x] + post) == Lead(pre) + indent + x + Trail(post)
  {
    JoinAround(pre, indent + x, post);
  }

  /** The substitution on a text whose first "ffmpeg -i" sits on one
      indented line ending in " \": that line alone is rewritten, whatever
      its old argument, quotes included. */
  lemma ReplaceUrlLine(pre: seq<string>, indent: string, arg: string, post: seq<string>, url: string)
    requires forall l :: l in pre ==> !Contains(l, HEAD)
    requires forall k :: 0 <= k < |indent| ==> indent[k] == ' '
    requires !HasLineTerminator(arg)
    ensures ReplaceUrl(JoinLines(pre + [indent + (HEAD + arg + TAIL)] + post), url)
         == JoinLines(pre + [indent + (HEAD + url + TAIL)] + post)
  {
    JoinedLine(pre, indent, HEAD + arg + TAIL, post);
    JoinedLine(pre, indent, HEAD + url + TAIL, post);
    NoHeadBefore(pre, indent, HEAD + arg + TAIL, Trail(post));
    ReplaceFirstLine(Lead(pre) + indent, arg, Trail(post), url);
  }

  /** Rewriting the URL of a generated script changes its ffmpeg line only:
      the new URL goes in unquoted, and the failure notice still names the
      old URL. */
  lemma UpdateRewritesUrlLine(id: string, rtspUrl: string, newUrl: string)
    requires HexId(id) && !HasLineTerminator(rtspUrl)
    ensures ReplaceUrl(Script(id, rtspUrl), newUrl)
         == JoinLines(PreambleLines(id) + [FfmpegLine(newUrl)] + TrailerLines(id, rtspUrl))
    ensures TrailerLines(id, rtspUrl)[11] == NoticeLine("        ", rtspUrl)
  {
    var arg := Quoted(rtspUrl);
    NoHeadBeforeFfmpeg(id);
    forall k | 0 <= k < |arg| ensures !IsLineTerminator(arg[k]) {
      if 0 < k < |arg| - 1 {
        assert arg[k] == rtspUrl[k - 1];
      }
    }
    ReplaceUrlLine(PreambleLines(id), "      ", arg, TrailerLines(id, rtspUrl), newUrl);
  }

  lemma NotifyLacksG(id: string)
    requires HexId(id)
    ensures 'g' !in NOTIFY_PREFIX + id + "\""
  {
  }

  /** Each preamble line lacks a character of "ffmpeg -i ". */
  lemma PreambleLacks(id: string)
    requires HexId(id)
    ensures var ls := PreambleLines(id);
      'g' !in ls[1] && 'g' !in ls[3] &&
      forall k :: 0 <= k < 9 && k != 1 && k != 3 ==> 'f' !in ls[k]
  {
    NotifyLacksG(id);
  }

  lemma NoHeadBeforeFfmpeg(id: string)
    requires HexId(id)
    ensures forall l :: l in PreambleLines(id) ==> !Contains(l, HEAD)
  {
    var ls := PreambleLines(id);
    PreambleLacks(id);
    forall k | 0 <= k < 9 ensures !Contains(ls[k], HEAD) {
      if k == 1 || k == 3 {
        MissingCharRulesOut(ls[k], HEAD, 5);
      } else {
        MissingCharRulesOut(ls[k], HEAD, 0);
      }
    }
  }

  // ---------------------------------------------------------------------
  // The calls a service makes, in order, up to the first failure
  // ---------------------------------------------------------------------

  datatype Call =
    | EnsureDirectory(path: string)
    | WriteFile(path: string, content: string)
    | Chmod(path: string)
    | Mkdir(path: string)
    | Unlink(path: string)
    | Rm(path: string)
    | Rmdir(path: string)
    | Run(command: string)

  function Perform(s: HostState, c: Call): (r: Step)
    ensures !c.Run? ==> r.state.commands == s.commands
  {
    match c
    case EnsureDirectory(p) => Step(None, EnsureDir(s, p))
    case WriteFile(p, content) => WriteStep(s, p, content)
    case Chmod(p) => ChmodStep(s, p)
    case Mkdir(p) => MkdirStep(s, p)
    case Unlink(p) => UnlinkStep(s, p)
    case Rm(p) => RemoveTreeStep(s, p, "lstat")
    case Rmdir(p) => RemoveTreeStep(s, p, "rmdir")
    case Run(command) => Step(None, Exec(s, command))
  }

  /** The calls in order; the first failure ends the run, with the state it
      found (nothing is rolled back). */
  function PerformAll(s: HostState, cs: seq<Call>): (r: Step)
    ensures (forall i :: 0 <= i < |cs| ==> !cs[i].Run?) ==> r.state.commands == s.commands
    decreases |cs|
  {
    if cs == [] then Step(None, s)
    else
      var st := Perform(s, cs[0]);
      if st.error.Some? then st else PerformAll(st.state, cs[1..])
  }

  lemma {:induction false} PerformAllAppend(s: HostState, a: seq<Call>, b: seq<Call>)
    ensures PerformAll(s, a + b) ==
      (var st := PerformAll(s, a); if st.error.Some? then st else PerformAll(st.state, b))
    decreases |a|
  {
    if a != [] {
      assert (a + b)[1..] == a[1..] + b;
      var st := Perform(s, a[0]);
      if st.error.None? {
        PerformAllAppend(st.state, a[1..], b);
      }
    } else {
      assert a + b == b;
    }
  }

  // ---------------------------------------------------------------------
  // `clearDirectoryContents`
  // ---------------------------------------------------------------------

  /** One removal per listed entry: `rmdir` for those the listing marked as
      directories, `unlink` for the rest. */
  function EntryCalls(es: seq<string>, listed: set<string>): (cs: seq<Call>)
    ensures |cs| == |es|
    ensures forall i :: 0 <= i < |cs| ==> !cs[i].Run?
  {
    seq(|es|, i requires 0 <= i < |es| => if es[i] in listed then Rmdir(es[i]) else Unlink(es[i]))
  }

  /** `readdir(dir)`, then the removal of every entry `es` it lists. */
  function ClearOutcome(s: HostState, dir: string, es: seq<string>): Step {
    match ScandirError(s, dir)
    case Some(e) => Step(Some(e), s)
    case None => PerformAll(s, EntryCalls(es, s.dirs))
  }

  /** Running the calls from `i` on is running call `i`, then the rest. */
  lemma PerformFrom(s: HostState, cs: seq<Call>, i: nat)
    requires i < |cs|
    ensures PerformAll(s, cs[i..]) ==
      (var st := Perform(s, cs[i]); if st.error.Some? then st else PerformAll(st.state, cs[i + 1..]))
  {
    assert cs[i..][0] == cs[i] && cs[i..][1..] == cs[i + 1..];
  }

  /** The removal of one entry. */
  method RemoveEntry(host: Host, e: string, listed: set<string>) returns (error: Option<string>)
    modifies host
    ensures Step(error, host.State()) == Perform(old(host.State()), if e in listed then Rmdir(e) else Unlink(e))
  {
    if e in listed {
      error := host.RemoveTree(e, "rmdir");
    } else {
      error := host.Unlink(e);
    }
  }

  /** `es` is what the listing returns: the removals are sequenced, which
      the concurrent `Promise.all` of the source does not do. */
  method ClearDirectoryContents(host: Host, dir: string, es: seq<string>) returns (error: Option<string>)
    modifies host
    ensures Step(error, host.State()) == ClearOutcome(old(host.State()), dir, es)
  {
    error := host.Readdir(dir);
    if error.Some? {
      return;
    }
    ghost var s0 := host.State();
    var listed := host.dirs;
    ghost var cs := EntryCalls(es, listed);
    var i := 0;
    while i < |es|
      invariant 0 <= i <= |es|
      invariant PerformAll(host.State(), cs[i..]) == PerformAll(s0, cs)
      invariant error.None?
    {
      PerformFrom(host.State(), cs, i);
      error := RemoveEntry(host, es[i], listed);
      if error.Some? {
        return;
      }
      i := i + 1;
    }
    assert cs[i..] == [];
  }

  /** Removing the first entry leaves the rest to remove. */
  lemma WithoutFirst(s: HostState, es: seq<string>, listed: set<string>)
    requires es != [] && s.dirs <= listed
    requires es[0] in listed ==> es[0] in s.dirs
    requires es[0] !in listed ==> es[0] in s.files
    ensures Perform(s, EntryCalls(es, listed)[0]).error.None?
    ensures Without(Perform(s, EntryCalls(es, listed)[0]).state, es[1..], listed) == Without(s, es, listed)
  {
    var s1 := Perform(s, EntryCalls(es, listed)[0]).state;
    var a := Without(s1, es[1..], listed);
    var b := Without(s, es, listed);
    assert a.files.Keys == b.files.Keys;
    assert a.dirs == b.dirs;
  }

  /** Removing the listed entries one after the other: no call fails, and
      exactly the entries, with the contents of those that are directories,
      are gone. */
  lemma {:induction false} EntriesRemoved(s: HostState, es: seq<string>, listed: set<string>, dir: string)
    requires forall i :: 0 <= i < |es| ==> Child(es[i], dir)
    requires forall i, j :: 0 <= i < j < |es| ==> es[i] != es[j]
    requires forall i :: 0 <= i < |es| ==> if es[i] in listed then es[i] in s.dirs else es[i] in s.files
    requires s.dirs <= listed
    ensures PerformAll(s, EntryCalls(es, listed)) == Step(None, Without(s, es, listed))
    decreases |es|
  {
    if es != [] {
      var cs := EntryCalls(es, listed);
      WithoutFirst(s, es, listed);
      var s1 := Perform(s, cs[0]).state;
      forall i | 1 <= i < |es|
        ensures if es[i] in listed then es[i] in s1.dirs else es[i] in s1.files
      {
        ChildrenApart(es[i], es[0], dir);
        assert es[i] != es[0];
      }
      assert cs[1..] == EntryCalls(es[1..], listed);
      EntriesRemoved(s1, es[1..], listed, dir);
    }
  }

  /** `clearDirectoryContents` on a directory, given its listing: every
      entry of the directory goes, with the contents of its sub-directories;
      the directory itself and everything outside it stay; no command runs. */
  lemma ClearEmptiesDirectory(s: HostState, dir: string, es: seq<string>)
    requires dir in s.dirs && Listing(s, dir, es)
    ensures ClearOutcome(s, dir, es) == Step(None, Without(s, es, s.dirs))
    ensures dir in Without(s, es, s.dirs).dirs
    ensures forall p :: Child(p, dir) ==> !Exists(Without(s, es, s.dirs), p)
    ensures forall p :: !Under(p, dir) ==>
      (p in Without(s, es, s.dirs).files <==> p in s.files) && (p in Without(s, es, s.dirs).dirs <==> p in s.dirs)
    ensures Without(s, es, s.dirs).commands == s.commands
  {
    EntriesRemoved(s, es, s.dirs, dir);
    var r := Without(s, es, s.dirs);
    forall p | Child(p, dir) ensures !Exists(r, p) {
      if Exists(s, p) {
        var i :| 0 <= i < |es| && es[i] == p;
        ListedRemoved(es, s.dirs, i);
      }
    }
    forall p | !Under(p, dir) ensures !Removed(es, s.dirs, p) {
      if Removed(es, s.dirs, p) {
        RemovedInside(es, s.dirs, dir, p);
      }
    }
  }

  // ---------------------------------------------------------------------
  // The service: create, update, remove, up and down
  // ---------------------------------------------------------------------

  type Reply = Response<()>

  /** What a call answers and the host it leaves. */
  datatype Outcome = Outcome(reply: Reply, state: HostState)

  const CREATE_PREFIX: string := "Error creando el servicio de la cámara: "
  const UPDATE_PREFIX: string := "Error modificando el servicio de la cámara: "
  const REMOVE_PREFIX: string := "Error eliminado el servicio de la cámara: "
  const UP_PREFIX: string := "Error iniciando el servicio de la cámara: "
  const DOWN_PREFIX: string := "Error deteniendo el servicio de la cámara: "
  const RELOAD: string := "systemctl daemon-reload"

  /** The `catch` of every operation: a thrown 500 naming the error. */
  function Failure(prefix: string, message: string): (r: Reply)
    requires prefix != ""
    ensures r.IsError(INTERNAL_SERVER_ERROR) && r.body.message == Text(prefix + message)
  {
    Fail(INTERNAL_SERVER_ERROR, Text(prefix + message))
  }

  /** The next call, unless an earlier one failed. */
  function Then(st: Step, c: Call): (r: Step)
    ensures !c.Run? ==> r.state.commands == st.state.commands
  {
    if st.error.Some? then st else Perform(st.state, c)
  }

  function ExecAll(s: HostState, commands: seq<string>): HostState {
    s.(commands := s.commands + commands)
  }

  /** The three base directories, made sure of first. */
  function Prepared(s: HostState): HostState {
    EnsureDir(EnsureDir(EnsureDir(s, BASE_PATH_SH), BASE_PATH_LIVE), BASE_PATH_SERVICE)
  }

  /** `create` up to its commands: refuse an existing script, else write
      the script, make it executable, make the live directory and write the
      unit. */
  function InstallStep(s: HostState, id: string, script: string, unit: string): (r: Step)
    ensures r.state.commands == s.commands
    ensures Exists(s, ScriptPath(id)) ==>
      r == Step(Some("Script " + ScriptPath(id) + " already exists"), Prepared(s))
  {
    var s1 := Prepared(s);
    if Exists(s1, ScriptPath(id)) then Step(Some("Script " + ScriptPath(id) + " already exists"), s1)
    else Then(Then(Then(Perform(s1, WriteFile(ScriptPath(id), script)),
           Chmod(ScriptPath(id))), Mkdir(LivePath(id))), WriteFile(UnitPath(id), unit))
  }

  /** `create`, with what differs between its two versions as parameters. */
  function InstallOutcome(s: HostState, id: string, script: string, unit: string,
                          commands: seq<string>, success: Reply, prefix: string): Outcome
    requires prefix != ""
  {
    var st := InstallStep(s, id, script, unit);
    if st.error.Some? then Outcome(Failure(prefix, st.error.value), st.state)
    else Outcome(success, ExecAll(st.state, commands))
  }

  /** The file work both versions of `create` share. */
  method Install(host: Host, id: string, script: string, unit: string) returns (error: Option<string>)
    modifies host
    ensures Step(error, host.State()) == InstallStep(old(host.State()), id, script, unit)
  {
    host.EnsureDirectoryExists(BASE_PATH_SH);
    host.EnsureDirectoryExists(BASE_PATH_LIVE);
    host.EnsureDirectoryExists(BASE_PATH_SERVICE);
    var found := host.Stat(ScriptPath(id));
    if found {
      return Some("Script " + ScriptPath(id) + " already exists");
    }
    error := host.WriteFile(ScriptPath(id), script);
    if error.None? {
      error := host.Chmod(ScriptPath(id));
    }
    if error.None? {
      error := host.Mkdir(LivePath(id));
    }
    if error.None? {
      error := host.WriteFile(UnitPath(id), unit);
    }
  }

  /** `update`, up to the commands: read the script, substitute the URL,
      write it back. */
  function RewriteStep(s: HostState, id: string, newUrl: string): (r: Step)
    ensures r.error.None? <==> ScriptPath(id) in s.files && ScriptPath(id) !in s.dirs
    ensures r.error.Some? ==> r.state == s
    ensures r.state.commands == s.commands
  {
    var rd := ReadStep(s, ScriptPath(id));
    if rd.error.Some? then Step(rd.error, s)
    else WriteStep(s, ScriptPath(id), ReplaceUrl(rd.content, newUrl))
  }

  /** The file work both versions of `update` share. */
  method Rewrite(host: Host, id: string, newUrl: string) returns (error: Option<string>)
    modifies host
    ensures Step(error, host.State()) == RewriteStep(old(host.State()), id, newUrl)
  {
    var content;
    error, content := host.ReadFile(ScriptPath(id));
    if error.None? {
      error := host.WriteFile(ScriptPath(id), ReplaceUrl(content, newUrl));
    }
  }

  /** `remove` up to its commands: unlink the script, remove the live
      directory, unlink the unit. */
  function UninstallStep(s: HostState, id: string): (r: Step)
    ensures r.state.commands == s.commands
    ensures r.error.None? <==> ScriptPath(id) in s.files && Exists(s, LivePath(id)) && UnitPath(id) in s.files
  {
    PathsApart(id);
    Then(Then(Perform(s, Unlink(ScriptPath(id))), Rm(LivePath(id))), Unlink(UnitPath(id)))
  }

  /** `remove`, with its commands and reply as parameters. */
  function UninstallOutcome(s: HostState, id: string, commands: seq<string>, success: Reply, prefix: string): Outcome
    requires prefix != ""
  {
    var st := UninstallStep(s, id);
    if st.error.Some? then Outcome(Failure(prefix, st.error.value), st.state)
    else Outcome(success, ExecAll(st.state, commands))
  }

  /** The file work both versions of `remove` share. */
  method Uninstall(host: Host, id: string) returns (error: Option<string>)
    modifies host
    ensures Step(error, host.State()) == UninstallStep(old(host.State()), id)
  {
    error := host.Unlink(ScriptPath(id));
    if error.None? {
      error := host.RemoveTree(LivePath(id), "lstat");
    }
    if error.None? {
      error := host.Unlink(UnitPath(id));
    }
  }

  /** `createCameraOnlineService`: systemd is reloaded only once the files
      are in place; an existing script, or any failing file call, is a 500. */
  function CreateOutcome(s: HostState, id: string, rtspUrl: string, user: string): (o: Outcome)
    ensures !o.reply.NoBody?
    ensures Exists(s, ScriptPath(id)) ==> o.reply.IsError(INTERNAL_SERVER_ERROR)
    ensures o.reply.body.ok ==>
      o.reply.Returned? && o.reply.body.status == CREATED && o.state.commands == s.commands + [RELOAD]
    ensures !o.reply.body.ok ==> o.reply.IsError(INTERNAL_SERVER_ERROR) && o.state.commands == s.commands
  {
    InstallOutcome(s, id, Script(id, rtspUrl), Unit(id, user), [RELOAD],
      Success(CREATED, Some(Key(SuccessfullyCreated)), None, None, Objet), CREATE_PREFIX)
  }

  /** `systemctl is-active` prints "active" for a running unit. */
  predicate IsActive(status: string) {
    status == "active" || status == "active\n"
  }

  /** `updateCameraOnlineService`: a script that cannot be read or written
      is a 500 with nothing changed; otherwise the status query runs, then a
      restart for an active unit or a reload. */
  function UpdateOutcome(s: HostState, id: string, newUrl: string, restart: bool): (o: Outcome)
    ensures !o.reply.NoBody?
    ensures o.reply.body.ok <==> ScriptPath(id) in s.files && ScriptPath(id) !in s.dirs
    ensures o.reply.body.ok ==>
      && o.reply.Returned? && o.reply.body.status == OK
      && o.state.commands == s.commands + ["systemctl is-active " + UnitName(id),
                                           if restart then "systemctl restart " + UnitName(id) else RELOAD]
    ensures !o.reply.body.ok ==> o.reply.IsError(INTERNAL_SERVER_ERROR) && o.state == s
  {
    var st := RewriteStep(s, id, newUrl);
    if st.error.Some? then Outcome(Failure(UPDATE_PREFIX, st.error.value), st.state)
    else Outcome(Success(OK, Some(Key(SuccessfullyUpdated)), None, None, Objet),
      ExecAll(st.state, ["systemctl is-active " + UnitName(id),
                         if restart then "systemctl restart " + UnitName(id) else RELOAD]))
  }

  /** `deleteCameraOnlineService`: the unit is stopped and systemd reloaded
      only when the script, the live directory and the unit all went. */
  function RemoveOutcome(s: HostState, id: string): (o: Outcome)
    ensures !o.reply.NoBody?
    ensures o.reply.body.ok <==> ScriptPath(id) in s.files && Exists(s, LivePath(id)) && UnitPath(id) in s.files
    ensures o.reply.body.ok ==>
      && o.reply.Returned? && o.reply.body.status == OK
      && o.state.commands == s.commands + ["systemctl stop " + UnitName(id), RELOAD]
    ensures !o.reply.body.ok ==> o.reply.IsError(INTERNAL_SERVER_ERROR) && o.state.commands == s.commands
  {
    UninstallOutcome(s, id, ["systemctl stop " + UnitName(id), RELOAD],
      Success(OK, Some(Key(SuccessfullyDeleted)), None, None, Objet), REMOVE_PREFIX)
  }

  /** `up` and `down`: empty the live directory (listed as `es`), then run
      `command`. The success envelope is built and dropped. */
  function SwitchOutcome(s: HostState, id: string, es: seq<string>, command: string, prefix: string): (o: Outcome)
    requires prefix != ""
    ensures LivePath(id) !in s.dirs ==> o.reply.IsError(INTERNAL_SERVER_ERROR) && o.state == s
    ensures o.reply.NoBody? ==> o.state.commands == s.commands + [command]
    ensures !o.reply.NoBody? ==> o.reply.IsError(INTERNAL_SERVER_ERROR) && o.state.commands == s.commands
  {
    var st := ClearOutcome(s, LivePath(id), es);
    if st.error.Some? then Outcome(Failure(prefix, st.error.value), st.state)
    else Outcome(NoBody, Exec(st.state, command))
  }

  /** `createCameraOnlineService`; `user` is the server's `USER`. */
  method CreateCameraOnlineService(host: Host, id: string, rtspUrl: string, user: string) returns (r: Reply)
    modifies host
    ensures Outcome(r, host.State()) == CreateOutcome(old(host.State()), id, rtspUrl, user)
  {
    var error := Install(host, id, Script(id, rtspUrl), Unit(id, user));
    if error.Some? {
      return Failure(CREATE_PREFIX, error.value);
    }
    host.ExecCommand(RELOAD);
    r := Success(CREATED, Some(Key(SuccessfullyCreated)), None, None, Objet);
  }

  /** `updateCameraOnlineScript`; `status` is what `systemctl is-active`
      prints. */
  method UpdateCameraOnlineScript(host: Host, id: string, newRtspUrl: string, status: string) returns (r: Reply)
    modifies host
    ensures Outcome(r, host.State()) == UpdateOutcome(old(host.State()), id, newRtspUrl, IsActive(status))
  {
    var error := Rewrite(host, id, newRtspUrl);
    if error.Some? {
      return Failure(UPDATE_PREFIX, error.value);
    }
    host.ExecCommand("systemctl is-active " + UnitName(id));
    if IsActive(status) {
      host.ExecCommand("systemctl restart " + UnitName(id));
    } else {
      host.ExecCommand(RELOAD);
    }
    r := Success(OK, Some(Key(SuccessfullyUpdated)), None, None, Objet);
  }

  method RemoveCameraOnlineService(host: Host, id: string) returns (r: Reply)
    modifies host
    ensures Outcome(r, host.State()) == RemoveOutcome(old(host.State()), id)
  {
    var error := Uninstall(host, id);
    if error.Some? {
      return Failure(REMOVE_PREFIX, error.value);
    }
    host.ExecCommand("systemctl stop " + UnitName(id));
    host.ExecCommand(RELOAD);
    r := Success(OK, Some(Key(SuccessfullyDeleted)), None, None, Objet);
  }

  /** `upCameraOnlineService`; `es` is the listing of the live directory. */
  method UpCameraOnlineService(host: Host, id: string, es: seq<string>) returns (r: Reply)
    modifies host
    ensures Outcome(r, host.State()) == SwitchOutcome(old(host.State()), id, es, "systemctl start " + UnitName(id), UP_PREFIX)
  {
    var error := ClearDirectoryContents(host, LivePath(id), es);
    if error.Some? {
      return Failure(UP_PREFIX, error.value);
    }
    host.ExecCommand("systemctl start " + UnitName(id));
    r := NoBody;
  }

  method DownCameraOnlineService(host: Host, id: string, es: seq<string>) returns (r: Reply)
    modifies host
    ensures Outcome(r, host.State()) == SwitchOutcome(old(host.State()), id, es, "systemctl stop " + UnitName(id), DOWN_PREFIX)
  {
    var error := ClearDirectoryContents(host, LivePath(id), es);
    if error.Some? {
      return Failure(DOWN_PREFIX, error.value);
    }
    host.ExecCommand("systemctl stop " + UnitName(id));
    r := NoBody;
  }

  // ---------------------------------------------------------------------
  // What the operations do
  // ---------------------------------------------------------------------

  /** The three artifacts of a camera sit apart from each other and from
      the base directories, and the script and unit are not inside the
      live directory. */
  lemma PathsApart(id: string)
    ensures ScriptPath(id) != LivePath(id) && ScriptPath(id) != UnitPath(id) && LivePath(id) != UnitPath(id)
    ensures !Under(ScriptPath(id), LivePath(id)) && !Under(UnitPath(id), LivePath(id))
    ensures ScriptPath(id) !in {BASE_PATH_SH, BASE_PATH_LIVE, BASE_PATH_SERVICE}
    ensures UnitPath(id) !in {BASE_PATH_SH, BASE_PATH_LIVE, BASE_PATH_SERVICE}
    ensures LivePath(id) !in {BASE_PATH_SH, BASE_PATH_LIVE, BASE_PATH_SERVICE}
    ensures !Covered(BASE_PATH_SH, LivePath(id)) && !Covered(BASE_PATH_LIVE, LivePath(id))
    ensures !Covered(BASE_PATH_SERVICE, LivePath(id))
  {
    assert ScriptPath(id)[17] == 'c' && LivePath(id)[17] == 'l' && (LivePath(id) + "/")[17] == 'l';
    assert UnitPath(id)[1] == 'e' && LivePath(id)[1] == 'v' && ScriptPath(id)[1] == 'v';
    assert BASE_PATH_SH[17] == 'c';
  }

  function BaseDirs(): set<string> {
    {BASE_PATH_SH, BASE_PATH_LIVE, BASE_PATH_SERVICE}
  }

  /** `create` refuses a camera whose script path is taken: it only makes
      sure of the base directories. */
  lemma InstallRefusesExistingScript(s: HostState, id: string, script: string, unit: string)
    requires Exists(s, ScriptPath(id))
    ensures InstallStep(s, id, script, unit)
         == Step(Some("Script " + ScriptPath(id) + " already exists"), s.(dirs := s.dirs + BaseDirs()))
  {
  }

  /** On a host where nothing is in the way, `create` writes the executable
      script and the unit and makes the live directory. */
  lemma InstallWrites(s: HostState, id: string, script: string, unit: string)
    requires !Exists(s, ScriptPath(id)) && LivePath(id) !in s.files && UnitPath(id) !in s.dirs
    ensures InstallStep(s, id, script, unit) == Step(None, HostState(
      s.files[ScriptPath(id) := File(script, true)]
             [UnitPath(id) := File(unit, UnitPath(id) in s.files && s.files[UnitPath(id)].executable)],
      s.dirs + BaseDirs() + {LivePath(id)},
      s.commands))
  {
    PathsApart(id);
    var s1 := Prepared(s);
    assert s1 == s.(dirs := s.dirs + BaseDirs());
  }

  /** A failure half-way leaves what was written: a file in the way of the
      live directory fails `create` after the script is in place. */
  lemma InstallKeepsScriptOnFailure(s: HostState, id: string, script: string, unit: string)
    requires !Exists(s, ScriptPath(id)) && LivePath(id) in s.files
    ensures InstallStep(s, id, script, unit) == Step(
      Some(NodeError("EEXIST", "file already exists", "mkdir", LivePath(id))),
      HostState(s.files[ScriptPath(id) := File(script, true)], s.dirs + BaseDirs(), s.commands))
  {
    PathsApart(id);
    var s1 := Prepared(s);
    assert s1 == s.(dirs := s.dirs + BaseDirs());
  }

  lemma CreateRefusesExistingScript(s: HostState, id: string, rtspUrl: string, user: string)
    requires Exists(s, ScriptPath(id))
    ensures CreateOutcome(s, id, rtspUrl, user).reply.IsError(INTERNAL_SERVER_ERROR)
    ensures CreateOutcome(s, id, rtspUrl, user).reply.body.message
         == Text(CREATE_PREFIX + "Script " + ScriptPath(id) + " already exists")
    ensures CreateOutcome(s, id, rtspUrl, user).state == s.(dirs := s.dirs + BaseDirs())
  {
    InstallRefusesExistingScript(s, id, Script(id, rtspUrl), Unit(id, user));
  }

  lemma CreateInstalls(s: HostState, id: string, rtspUrl: string, user: string)
    requires !Exists(s, ScriptPath(id)) && LivePath(id) !in s.files && UnitPath(id) !in s.dirs
    ensures CreateOutcome(s, id, rtspUrl, user).reply.Returned?
    ensures CreateOutcome(s, id, rtspUrl, user).reply.body.ok
    ensures CreateOutcome(s, id, rtspUrl, user).reply.body.status == CREATED
    ensures CreateOutcome(s, id, rtspUrl, user).state == HostState(
      s.files[ScriptPath(id) := File(Script(id, rtspUrl), true)]
             [UnitPath(id) := File(Unit(id, user), UnitPath(id) in s.files && s.files[UnitPath(id)].executable)],
      s.dirs + BaseDirs() + {LivePath(id)},
      s.commands + [RELOAD])
  {
    InstallWrites(s, id, Script(id, rtspUrl), Unit(id, user));
  }

  /** `update` of a camera without a script fails and changes nothing. */
  lemma UpdateMissingScript(s: HostState, id: string, newUrl: string, restart: bool)
    requires !Exists(s, ScriptPath(id))
    ensures UpdateOutcome(s, id, newUrl, restart)
         == Outcome(Failure(UPDATE_PREFIX, NoEntry("open", ScriptPath(id))), s)
  {
  }

  /** `update` of an existing script substitutes the URL in it, keeps its
      permission bit, asks whether the unit is active and then restarts it
      or reloads systemd. */
  lemma UpdateRewritesScript(s: HostState, id: string, newUrl: string, restart: bool)
    requires ScriptPath(id) in s.files && ScriptPath(id) !in s.dirs
    ensures UpdateOutcome(s, id, newUrl, restart).reply.Returned?
    ensures UpdateOutcome(s, id, newUrl, restart).reply.body.ok
    ensures UpdateOutcome(s, id, newUrl, restart).reply.body.status == OK
    ensures UpdateOutcome(s, id, newUrl, restart).state == HostState(
      s.files[ScriptPath(id) := s.files[ScriptPath(id)].(content := ReplaceUrl(s.files[ScriptPath(id)].content, newUrl))],
      s.dirs,
      s.commands + ["systemctl is-active " + UnitName(id),
                    if restart then "systemctl restart " + UnitName(id) else RELOAD])
  {
  }

  /** A script written by `create` and then rewritten by `update` runs
      ffmpeg on the new URL, unquoted, while its failure notice still names
      the URL it was created with. */
  lemma CreateThenUpdate(s: HostState, id: string, rtspUrl: string, user: string, newUrl: string, restart: bool)
    requires HexId(id) && !HasLineTerminator(rtspUrl)
    requires !Exists(s, ScriptPath(id)) && LivePath(id) !in s.files && UnitPath(id) !in s.dirs
    ensures var s2 := UpdateOutcome(CreateOutcome(s, id, rtspUrl, user).state, id, newUrl, restart).state;
      ScriptPath(id) in s2.files &&
      s2.files[ScriptPath(id)] == File(JoinLines(PreambleLines(id) + [FfmpegLine(newUrl)] + TrailerLines(id, rtspUrl)), true)
  {
    CreateInstalls(s, id, rtspUrl, user);
    PathsApart(id);
    var s1 := CreateOutcome(s, id, rtspUrl, user).state;
    assert s1.files[ScriptPath(id)] == File(Script(id, rtspUrl), true);
    UpdateRewritesScript(s1, id, newUrl, restart);
    UpdateRewritesUrlLine(id, rtspUrl, newUrl);
  }

  /** What `remove` leaves when all three artifacts are in place. */
  function Uninstalled(s: HostState, id: string): HostState {
    HostState(
      map q | q in s.files && q != ScriptPath(id) && q != UnitPath(id) && !Covered(q, LivePath(id)) :: s.files[q],
      (set q | q in s.dirs && !Covered(q, LivePath(id))),
      s.commands)
  }

  /** With all three artifacts in place, `remove` deletes the script, the
      live directory with its contents and the unit, and nothing else. */
  lemma UninstallDeletes(s: HostState, id: string)
    requires ScriptPath(id) in s.files && Exists(s, LivePath(id)) && UnitPath(id) in s.files
    ensures UninstallStep(s, id) == Step(None, Uninstalled(s, id))
  {
    PathsApart(id);
  }

  /** ...and then stops the unit and reloads systemd. */
  lemma RemoveDeletes(s: HostState, id: string)
    requires ScriptPath(id) in s.files && Exists(s, LivePath(id)) && UnitPath(id) in s.files
    ensures RemoveOutcome(s, id).reply.Returned?
    ensures RemoveOutcome(s, id).reply.body.ok && RemoveOutcome(s, id).reply.body.status == OK
    ensures RemoveOutcome(s, id).state
         == ExecAll(Uninstalled(s, id), ["systemctl stop " + UnitName(id), RELOAD])
  {
    UninstallDeletes(s, id);
  }

  /** The first deletion that fails ends `remove`: without a script
      nothing changes; without a live directory only the script is gone; in
      both cases no command runs. */
  lemma RemoveStopsAtFirstFailure(s: HostState, id: string)
    ensures ScriptPath(id) !in s.files ==>
      RemoveOutcome(s, id).reply.IsError(INTERNAL_SERVER_ERROR) && RemoveOutcome(s, id).state == s
    ensures ScriptPath(id) in s.files && !Exists(s, LivePath(id)) ==>
      RemoveOutcome(s, id) == Outcome(Failure(REMOVE_PREFIX, NoEntry("lstat", LivePath(id))),
                                      s.(files := s.files - {ScriptPath(id)}))
  {
    PathsApart(id);
  }

  /** Nothing of a camera's artifacts on the host, inside its live
      directory included. */
  ghost predicate Clear(s: HostState, id: string) {
    !Exists(s, ScriptPath(id)) && !Exists(s, UnitPath(id)) &&
    forall q :: Covered(q, LivePath(id)) ==> !Exists(s, q)
  }

  /** The file work of `remove` undoes that of `create`, whatever commands
      ran in between: only the base directories stay. */
  lemma InstallThenUninstall(s: HostState, id: string, script: string, unit: string, commands: seq<string>)
    requires Clear(s, id)
    ensures InstallStep(s, id, script, unit).error.None?
    ensures Uninstalled(InstallStep(s, id, script, unit).state.(commands := commands), id)
         == HostState(s.files, s.dirs + BaseDirs(), commands)
  {
    PathsApart(id);
    assert Covered(LivePath(id), LivePath(id));
    InstallWrites(s, id, script, unit);
    var s1 := InstallStep(s, id, script, unit).state.(commands := commands);
    var s2 := Uninstalled(s1, id);
    assert s2.files == s.files;
    assert s2.dirs == s.dirs + BaseDirs();
  }

  /** `remove` undoes `create`: the files and directories are as before,
      but for the base directories `create` made sure of. */
  lemma CreateThenRemove(s: HostState, id: string, rtspUrl: string, user: string)
    requires Clear(s, id)
    ensures var s2 := RemoveOutcome(CreateOutcome(s, id, rtspUrl, user).state, id);
      s2.reply.Returned? && s2.reply.body.ok &&
      s2.state == HostState(s.files, s.dirs + BaseDirs(),
                            s.commands + [RELOAD, "systemctl stop " + UnitName(id), RELOAD])
  {
    var s1 := CreateOutcome(s, id, rtspUrl, user).state;
    CreatedArtifacts(s, id, rtspUrl, user);
    InstallThenUninstall(s, id, Script(id, rtspUrl), Unit(id, user), s.commands + [RELOAD]);
    RemoveDeletes(s1, id);
  }

  /** On a clear host `create` leaves the installed artifacts and one
      reload behind. */
  lemma CreatedArtifacts(s: HostState, id: string, rtspUrl: string, user: string)
    requires Clear(s, id)
    ensures var s1 := CreateOutcome(s, id, rtspUrl, user).state;
      && s1 == InstallStep(s, id, Script(id, rtspUrl), Unit(id, user)).state.(commands := s.commands + [RELOAD])
      && ScriptPath(id) in s1.files && Exists(s1, LivePath(id)) && UnitPath(id) in s1.files
  {
    PathsApart(id);
    assert Covered(LivePath(id), LivePath(id));
    InstallWrites(s, id, Script(id, rtspUrl), Unit(id, user));
  }

  /** `up` and `down` on an existing live directory, given its listing:
      its entries are gone, it stays, nothing outside it changes, and the
      command runs; the caller gets no value. */
  lemma SwitchEmptiesLiveDirectory(s: HostState, id: string, es: seq<string>, command: string, prefix: string)
    requires prefix != ""
    requires LivePath(id) in s.dirs && Listing(s, LivePath(id), es)
    ensures SwitchOutcome(s, id, es, command, prefix) == Outcome(NoBody, Exec(Without(s, es, s.dirs), command))
    ensures LivePath(id) in Without(s, es, s.dirs).dirs
    ensures forall p :: Child(p, LivePath(id)) ==> !Exists(Without(s, es, s.dirs), p)
    ensures forall p :: !Under(p, LivePath(id)) ==>
      (p in Without(s, es, s.dirs).files <==> p in s.files) && (p in Without(s, es, s.dirs).dirs <==> p in s.dirs)
  {
    ClearEmptiesDirectory(s, LivePath(id), es);
  }

  /** Without a live directory, `up` and `down` fail and run no command. */
  lemma SwitchNeedsLiveDirectory(s: HostState, id: string, es: seq<string>, command: string, prefix: string)
    requires prefix != ""
    requires LivePath(id) !in s.dirs
    ensures SwitchOutcome(s, id, es, command, prefix).reply.IsError(INTERNAL_SERVER_ERROR)
    ensures SwitchOutcome(s, id, es, command, prefix).state == s
  {
  }

  // ---------------------------------------------------------------------
  // The `is-active` test
  // ---------------------------------------------------------------------

  /** The test as written: the output contains "active". */
  predicate RestartAsWritten(status: string) {
    Contains(status, "active")
  }

  /** It also holds for a stopped unit, which `update` then restarts. */
  lemma InactiveRestartsAsWritten(s: HostState, id: string, newUrl: string)
    requires ScriptPath(id) in s.files && ScriptPath(id) !in s.dirs
    ensures RestartAsWritten("inactive\n") && !IsActive("inactive\n")
    ensures UpdateOutcome(s, id, newUrl, RestartAsWritten("inactive\n")).state.commands
         == s.commands + ["systemctl is-active " + UnitName(id), "systemctl restart " + UnitName(id)]
  {
    assert OccursAt("inactive\n", "active", 2);
  }

  /** The corrected test restarts exactly a running unit, and agrees with
      the written one whenever the unit is running. */
  lemma UpdateRestartsOnlyActive(s: HostState, id: string, newUrl: string, status: string)
    requires ScriptPath(id) in s.files && ScriptPath(id) !in s.dirs
    ensures UpdateOutcome(s, id, newUrl, IsActive(status)).state.commands[|s.commands| + 1]
         == if status == "active" || status == "active\n" then "systemctl restart " + UnitName(id) else RELOAD
    ensures IsActive(status) ==> RestartAsWritten(status)
  {
    if IsActive(status) {
      assert OccursAt(status, "active", 0);
    }
  }
}
