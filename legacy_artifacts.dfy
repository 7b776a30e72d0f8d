/** The older generator of the same per-camera artifacts
    (src/modules/cameras/utils/camerasUtils.service.ts). It writes the same
    three files in the same places, but its script notifies another URL,
    runs ffmpeg on the URL unquoted, and its operations issue other
    commands. Every reply it gives is thrown, success included. */
module LegacyArtifacts {
  import opened Optional
  import opened Text
  import opened Envelope
  import opened FileSystem
  import opened Artifacts

  // ---------------------------------------------------------------------
  // The script
  // ---------------------------------------------------------------------

  // Long lines in short pieces, so that the verifier can tell which
  // characters they contain.
  const LEGACY_NOTIFY_PREFIX: string :=
    "      NOTIF" + "Y_URL=\"http" + "://localhos" + "t:3000/noti" + "fyAlert/"
  const LEGACY_CURL_LINE: string :=
    "        cur" + "l -X POST -" + "H \"Content-" + "Type: appli" + "cation/json"
    + "\" -d \"{\\\"me" + "ssage\\\": \\\"" + "$message\\\"" + "}\" $NOTIFY_" + "URL"
  const LEGACY_OPTIONS: seq<string> := [
    "          -s 854x480 \\",
    "          -c:v libx264 \\",
    "          -b:v 800k \\",
    "          -tune zerolatency \\",
    "          -preset ultrafast \\",
    "          -hls_time 5 \\",
    "          -hls_list_size 1 \\",
    "          -hls_flags delete_segments \\" ]
  const LEGACY_RETRY_LINES: seq<string> := [
    "          sleep 5",
    "        else",
    "          break",
    "        fi",
    "      done" ]

  /** The seven lines before the ffmpeg line. */
  function LegacyPreambleLines(id: string): (lines: seq<string>)
    ensures |lines| == 7
  {
    [ "#!/bin/bash",
      LEGACY_NOTIFY_PREFIX + id + "\"",
      "      send_notification() {",
      "        local message=\"$1\"",
      LEGACY_CURL_LINE,
      "      }",
      "      while true; do" ]
  }

  /** ffmpeg on `arg`, as it stands: the URL is not quoted. */
  function LegacyFfmpegLine(arg: string): string {
    "        " + (HEAD + arg + TAIL)
  }

  /** The sixteen lines after it; the playlist path is not quoted either. */
  function LegacyTrailerLines(id: string, rtspUrl: string): (lines: seq<string>)
    ensures |lines| == 16
  {
    LEGACY_OPTIONS
    + [ "          " + PlaylistPath(id),
        "        if [ $? -ne 0 ]; then",
        NoticeLine("          ", rtspUrl) ]
    + LEGACY_RETRY_LINES
  }

  function LegacyScriptLines(id: string, rtspUrl: string): (lines: seq<string>)
    ensures |lines| == 24
  {
    LegacyPreambleLines(id) + [LegacyFfmpegLine(rtspUrl)] + LegacyTrailerLines(id, rtspUrl)
  }

  function LegacyScript(id: string, rtspUrl: string): string {
    JoinLines(LegacyScriptLines(id, rtspUrl))
  }

  /** The notify line has no "g" for a camera id. */
  lemma LegacyNotifyLacksG(id: string)
    requires HexId(id)
    ensures 'g' !in LEGACY_NOTIFY_PREFIX + id + "\""
  {
  }

  /** Each preamble line lacks a character of "ffmpeg -i ". */
  lemma LegacyPreambleLacks(id: string)
    requires HexId(id)
    ensures var ls := LegacyPreambleLines(id);
      'g' !in ls[1] && 'g' !in ls[2] &&
      forall k :: 0 <= k < 7 && k != 1 && k != 2 ==> 'f' !in ls[k]
  {
    LegacyNotifyLacksG(id);
  }

  lemma NoHeadBeforeLegacyFfmpeg(id: string)
    requires HexId(id)
    ensures forall l :: l in LegacyPreambleLines(id) ==> !Contains(l, HEAD)
  {
    var ls := LegacyPreambleLines(id);
    LegacyPreambleLacks(id);
    forall k | 0 <= k < 7 ensures !Contains(ls[k], HEAD) {
      if k == 1 || k == 2 {
        MissingCharRulesOut(ls[k], HEAD, 5);
      } else {
        MissingCharRulesOut(ls[k], HEAD, 0);
      }
    }
  }

  /** Rewriting the URL of an older script changes its ffmpeg line only;
      the failure notice still names the old URL. */
  lemma LegacyUpdateRewritesUrlLine(id: string, rtspUrl: string, newUrl: string)
    requires HexId(id) && !HasLineTerminator(rtspUrl)
    ensures ReplaceUrl(LegacyScript(id, rtspUrl), newUrl)
         == JoinLines(LegacyPreambleLines(id) + [LegacyFfmpegLine(newUrl)] + LegacyTrailerLines(id, rtspUrl))
    ensures LegacyTrailerLines(id, rtspUrl)[10] == NoticeLine("          ", rtspUrl)
  {
    NoHeadBeforeLegacyFfmpeg(id);
    ReplaceUrlLine(LegacyPreambleLines(id), "        ", rtspUrl, LegacyTrailerLines(id, rtspUrl), newUrl);
  }

  // ---------------------------------------------------------------------
  // The operations
  // ---------------------------------------------------------------------

  const LEGACY_CREATE_PREFIX: string := "Error creating camera service: "

  function LegacyUpdatePrefix(id: string): (prefix: string)
    ensures prefix != ""
  {
    "Error modifying camera script " + id + ": "
  }

  function LegacyRemovePrefix(id: string): (prefix: string)
    ensures prefix != ""
  {
    "Error deleting camera service " + id + ": "
  }

  function StopCommand(id: string): string {
    "systemctl stop " + UnitName(id)
  }

  /** `create`: after writing, stop the unit and reload systemd; the
      success envelope is thrown. */
  function LegacyCreateOutcome(s: HostState, id: string, rtspUrl: string, user: string): (o: Outcome)
    ensures o.reply.Thrown?
    ensures Exists(s, ScriptPath(id)) ==> o.reply.IsError(INTERNAL_SERVER_ERROR)
    ensures o.reply.body.ok ==> o.reply.code == CREATED && o.state.commands == s.commands + [StopCommand(id), RELOAD]
    ensures !o.reply.body.ok ==> o.reply.IsError(INTERNAL_SERVER_ERROR) && o.state.commands == s.commands
  {
    InstallOutcome(s, id, LegacyScript(id, rtspUrl), Unit(id, user), [StopCommand(id), RELOAD],
      Success(CREATED, Some(Key(SuccessfullyCreated)), None, None, HttpException), LEGACY_CREATE_PREFIX)
  }

  /** `update`: rewrite the URL and reload systemd, never restarting. */
  function LegacyUpdateOutcome(s: HostState, id: string, newUrl: string): (o: Outcome)
    ensures o.reply.Thrown?
    ensures o.reply.body.ok <==> ScriptPath(id) in s.files && ScriptPath(id) !in s.dirs
    ensures o.reply.body.ok ==> o.reply.code == OK && o.state.commands == s.commands + [RELOAD]
    ensures !o.reply.body.ok ==> o.reply.IsError(INTERNAL_SERVER_ERROR) && o.state == s
  {
    var st := RewriteStep(s, id, newUrl);
    if st.error.Some? then Outcome(Failure(LegacyUpdatePrefix(id), st.error.value), st.state)
    else Outcome(Success(OK, Some(Key(SuccessfullyUpdated)), None, None, HttpException), Exec(st.state, RELOAD))
  }

  /** `remove`: the unit is stopped and systemd reloaded only once every
      file went. */
  function LegacyRemoveOutcome(s: HostState, id: string): (o: Outcome)
    ensures o.reply.Thrown?
    ensures o.reply.body.ok <==> ScriptPath(id) in s.files && Exists(s, LivePath(id)) && UnitPath(id) in s.files
    ensures o.reply.body.ok ==> o.reply.code == OK && o.state.commands == s.commands + [StopCommand(id), RELOAD]
    ensures !o.reply.body.ok ==> o.reply.IsError(INTERNAL_SERVER_ERROR) && o.state.commands == s.commands
  {
    UninstallOutcome(s, id, [StopCommand(id), RELOAD],
      Success(OK, Some(Key(SuccessfullyDeleted)), None, None, HttpException), LegacyRemovePrefix(id))
  }

  method LegacyCreateCameraOnlineService(host: Host, id: string, rtspUrl: string, user: string) returns (r: Reply)
    modifies host
    ensures Outcome(r, host.State()) == LegacyCreateOutcome(old(host.State()), id, rtspUrl, user)
  {
    var error := Install(host, id, LegacyScript(id, rtspUrl), Unit(id, user));
    if error.Some? {
      return Failure(LEGACY_CREATE_PREFIX, error.value);
    }
    host.ExecCommand(StopCommand(id));
    host.ExecCommand(RELOAD);
    r := Success(CREATED, Some(Key(SuccessfullyCreated)), None, None, HttpException);
  }

  method LegacyUpdateCameraOnlineScript(host: Host, id: string, newRtspUrl: string) returns (r: Reply)
    modifies host
    ensures Outcome(r, host.State()) == LegacyUpdateOutcome(old(host.State()), id, newRtspUrl)
  {
    var error := Rewrite(host, id, newRtspUrl);
    if error.Some? {
      return Failure(LegacyUpdatePrefix(id), error.value);
    }
    host.ExecCommand(RELOAD);
    r := Success(OK, Some(Key(SuccessfullyUpdated)), None, None, HttpException);
  }

  method LegacyRemoveCameraOnlineService(host: Host, id: string) returns (r: Reply)
    modifies host
    ensures Outcome(r, host.State()) == LegacyRemoveOutcome(old(host.State()), id)
  {
    var error := Uninstall(host, id);
    if error.Some? {
      return Failure(LegacyRemovePrefix(id), error.value);
    }
    host.ExecCommand(StopCommand(id));
    host.ExecCommand(RELOAD);
    r := Success(OK, Some(Key(SuccessfullyDeleted)), None, None, HttpException);
  }

  // ---------------------------------------------------------------------
  // What the operations do
  // ---------------------------------------------------------------------

  /** Every reply is thrown: failures with 500, successes with their own
      status and `ok` set. */
  lemma LegacyAlwaysThrows(s: HostState, id: string, rtspUrl: string, user: string, newUrl: string)
    ensures LegacyCreateOutcome(s, id, rtspUrl, user).reply.Thrown?
    ensures LegacyUpdateOutcome(s, id, newUrl).reply.Thrown?
    ensures LegacyRemoveOutcome(s, id).reply.Thrown?
    ensures LegacyCreateOutcome(s, id, rtspUrl, user).reply.body.ok ==>
      LegacyCreateOutcome(s, id, rtspUrl, user).reply.code == CREATED
    ensures !LegacyCreateOutcome(s, id, rtspUrl, user).reply.body.ok ==>
      LegacyCreateOutcome(s, id, rtspUrl, user).reply.code == INTERNAL_SERVER_ERROR
  {
  }

  lemma LegacyCreateRefusesExistingScript(s: HostState, id: string, rtspUrl: string, user: string)
    requires Exists(s, ScriptPath(id))
    ensures LegacyCreateOutcome(s, id, rtspUrl, user).reply.IsError(INTERNAL_SERVER_ERROR)
    ensures LegacyCreateOutcome(s, id, rtspUrl, user).reply.body.message
         == Text(LEGACY_CREATE_PREFIX + "Script " + ScriptPath(id) + " already exists")
    ensures LegacyCreateOutcome(s, id, rtspUrl, user).state == s.(dirs := s.dirs + BaseDirs())
  {
    InstallRefusesExistingScript(s, id, LegacyScript(id, rtspUrl), Unit(id, user));
  }

  /** On a host where nothing is in the way, `create` writes the files,
      then stops the unit and reloads systemd, and throws its success. */
  lemma LegacyCreateStopsThenReloads(s: HostState, id: string, rtspUrl: string, user: string)
    requires !Exists(s, ScriptPath(id)) && LivePath(id) !in s.files && UnitPath(id) !in s.dirs
    ensures LegacyCreateOutcome(s, id, rtspUrl, user).reply.Thrown?
    ensures LegacyCreateOutcome(s, id, rtspUrl, user).reply.body.ok
    ensures LegacyCreateOutcome(s, id, rtspUrl, user).reply.code == CREATED
    ensures LegacyCreateOutcome(s, id, rtspUrl, user).state == HostState(
      s.files[ScriptPath(id) := File(LegacyScript(id, rtspUrl), true)]
             [UnitPath(id) := File(Unit(id, user), UnitPath(id) in s.files && s.files[UnitPath(id)].executable)],
      s.dirs + BaseDirs() + {LivePath(id)},
      s.commands + [StopCommand(id), RELOAD])
  {
    InstallWrites(s, id, LegacyScript(id, rtspUrl), Unit(id, user));
  }

  lemma LegacyUpdateMissingScript(s: HostState, id: string, newUrl: string)
    requires !Exists(s, ScriptPath(id))
    ensures LegacyUpdateOutcome(s, id, newUrl)
         == Outcome(Failure(LegacyUpdatePrefix(id), NoEntry("open", ScriptPath(id))), s)
  {
  }

  /** `update` of an existing script substitutes the URL and only reloads
      systemd: a running unit keeps the old URL until it restarts. */
  lemma LegacyUpdateOnlyReloads(s: HostState, id: string, newUrl: string)
    requires ScriptPath(id) in s.files && ScriptPath(id) !in s.dirs
    ensures LegacyUpdateOutcome(s, id, newUrl).reply.Thrown?
    ensures LegacyUpdateOutcome(s, id, newUrl).reply.body.ok
    ensures LegacyUpdateOutcome(s, id, newUrl).reply.code == OK
    ensures LegacyUpdateOutcome(s, id, newUrl).state == HostState(
      s.files[ScriptPath(id) := s.files[ScriptPath(id)].(content := ReplaceUrl(s.files[ScriptPath(id)].content, newUrl))],
      s.dirs,
      s.commands + [RELOAD])
  {
  }

  /** A script written by `create` and rewritten by `update` runs ffmpeg
      on the new URL; the rest of it is as created. */
  lemma LegacyCreateThenUpdate(s: HostState, id: string, rtspUrl: string, user: string, newUrl: string)
    requires HexId(id) && !HasLineTerminator(rtspUrl)
    requires !Exists(s, ScriptPath(id)) && LivePath(id) !in s.files && UnitPath(id) !in s.dirs
    ensures var s2 := LegacyUpdateOutcome(LegacyCreateOutcome(s, id, rtspUrl, user).state, id, newUrl).state;
      ScriptPath(id) in s2.files &&
      s2.files[ScriptPath(id)]
        == File(JoinLines(LegacyPreambleLines(id) + [LegacyFfmpegLine(newUrl)] + LegacyTrailerLines(id, rtspUrl)), true)
  {
    LegacyCreateStopsThenReloads(s, id, rtspUrl, user);
    PathsApart(id);
    var s1 := LegacyCreateOutcome(s, id, rtspUrl, user).state;
    assert s1.files[ScriptPath(id)] == File(LegacyScript(id, rtspUrl), true);
    LegacyUpdateOnlyReloads(s1, id, newUrl);
    LegacyUpdateRewritesUrlLine(id, rtspUrl, newUrl);
  }

  /** With all three artifacts in place, `remove` deletes them and then
      stops the unit and reloads systemd. */
  lemma LegacyRemoveDeletes(s: HostState, id: string)
    requires ScriptPath(id) in s.files && Exists(s, LivePath(id)) && UnitPath(id) in s.files
    ensures LegacyRemoveOutcome(s, id).reply.Thrown?
    ensures LegacyRemoveOutcome(s, id).reply.body.ok && LegacyRemoveOutcome(s, id).reply.code == OK
    ensures LegacyRemoveOutcome(s, id).state == ExecAll(Uninstalled(s, id), [StopCommand(id), RELOAD])
  {
    UninstallDeletes(s, id);
  }

  /** `remove` undoes `create`, but for the base directories. */
  lemma LegacyCreateThenRemove(s: HostState, id: string, rtspUrl: string, user: string)
    requires Clear(s, id)
    ensures var s2 := LegacyRemoveOutcome(LegacyCreateOutcome(s, id, rtspUrl, user).state, id);
      s2.reply.body.ok &&
      s2.state == HostState(s.files, s.dirs + BaseDirs(),
                            s.commands + [StopCommand(id), RELOAD, StopCommand(id), RELOAD])
  {
    var st := InstallStep(s, id, LegacyScript(id, rtspUrl), Unit(id, user));
    InstallThenUninstall(s, id, LegacyScript(id, rtspUrl), Unit(id, user), s.commands + [StopCommand(id), RELOAD]);
    InstallWrites(s, id, LegacyScript(id, rtspUrl), Unit(id, user));
    var s1 := LegacyCreateOutcome(s, id, rtspUrl, user).state;
    assert s1 == st.state.(commands := s.commands + [StopCommand(id), RELOAD]);
    LegacyRemoveDeletes(s1, id);
  }
}
