/** The scripted terminal of a project card (components/InteractiveTerminal.tsx): a cursor walks a
    fixed list of commands; every 2000 ms timer tick appends the next command and its canned output
    to the transcript, and the Reset button starts the playback over. */
module Terminal {

  /** The output shown for a command without a canned output, or with an empty one. */
  const Placeholder := "Command executed successfully."

  /** The canned outputs, one constant per command of the table below. */
  const SshOutput := "Welcome to Ubuntu 22.04.3 LTS (GNU/Linux 5.15.0-88-generic x86_64)\nroot@proxmox:~#"
  const PvesmOutput := "local: local\n  lvmthin: local-lvm\n  nfs: backup-nfs\n  dir: local\n  iso: local\n  vztmpl: local"
  const DockerPsOutput := "CONTAINER ID   IMAGE     COMMAND   CREATED   STATUS    PORTS     NAMES\nabc123def456   nginx     \"/docker-entrypoint.…\"   2 hours ago   Up 2 hours   0.0.0.0:80->80/tcp   web-server"
  const GrafanaStatusOutput := "● grafana-server.service - Grafana instance\n   Loaded: loaded (/etc/systemd/system/grafana-server.service; enabled; vendor preset: enabled)\n   Active: active (running) since Mon 2024-01-15 10:30:00 UTC; 2h 30min ago"
  const ComposeUpOutput := "Creating network \"app_default\"\nCreating app_web_1 ... done\nCreating app_db_1  ... done\nCreating app_redis_1 ... done"
  const ComposeLogsOutput := "web_1  | [INFO] Server starting on port 3000\nweb_1  | [INFO] Database connection established\ndb_1   | [INFO] PostgreSQL started successfully"
  const PruneOutput := "WARNING! This will remove:\n  - all stopped containers\n  - all networks not used by at least one container\n  - all images without at least one container associated to them\nDeleted Containers: 5\nDeleted Images: 12\nDeleted Networks: 2\nTotal reclaimed space: 2.1GB"
  const GccOutput := ""
  const GdbOutput := "GNU gdb (Ubuntu 12.1-0ubuntu1~22.04.1) 12.1\nCopyright (C) 2022 Free Software Foundation, Inc.\n(gdb)"
  const ValgrindOutput := "==12345== Memcheck, a memory error detector\n==12345== Copyright (C) 2002-2022, and GNU GPL'd\n==12345== Using Valgrind-3.19.0 and LibVEX\n==12345== All heap blocks were freed -- no leaks are possible"
  const NpmInstallOutput := "added 1254 packages, and audited 1255 packages in 1.2s\nfound 0 vulnerabilities"
  const NpmDevOutput := "> app@0.1.0 dev\n> next dev\n\nready - started server on 0.0.0.0:3000, url: http://localhost:3000"
  const NpmBuildOutput := "> app@0.1.0 build\n> next build\n\n✓ Compiled successfully\n✓ Collecting page data\n✓ Finalizing page optimization"
  const JavacOutput := ""
  const JavaRunOutput := "Hello, World!\nProgram executed successfully."
  const MvnTestOutput := "[INFO] Scanning for projects...\n[INFO] Running tests...\n[INFO] Tests run: 15, Failures: 0, Errors: 0, Skipped: 0\n[INFO] BUILD SUCCESS"

  /** The canned outputs, keyed by command text. */
  function CommandOutputs(): map<string, string> {
    map[
      "ssh root@proxmox.local" := SshOutput,
      "pvesm status" := PvesmOutput,
      "docker ps" := DockerPsOutput,
      "systemctl status grafana-server" := GrafanaStatusOutput,
      "docker-compose up -d" := ComposeUpOutput,
      "docker-compose logs -f" := ComposeLogsOutput,
      "docker system prune -a" := PruneOutput,
      "gcc -g -o program program.c" := GccOutput,
      "gdb ./program" := GdbOutput,
      "valgrind --leak-check=full ./program" := ValgrindOutput,
      "npm install" := NpmInstallOutput,
      "npm run dev" := NpmDevOutput,
      "npm run build" := NpmBuildOutput,
      "javac *.java" := JavacOutput,
      "java -cp . Main" := JavaRunOutput,
      "mvn test" := MvnTestOutput
    ]
  }

  /** `outputs[command] || Placeholder`: a missing key and an empty canned output both fall back. */
  function OutputFor(outputs: map<string, string>, command: string): (r: string)
    ensures r != ""
    ensures r == Placeholder || (command in outputs && r == outputs[command])
    ensures command in outputs && outputs[command] != "" ==> r == outputs[command]
  {
    if command in outputs && outputs[command] != "" then outputs[command] else Placeholder
  }

  /** The two commands whose canned output is the empty string show the placeholder. */
  lemma EmptyOutputsFallBack()
    ensures OutputFor(CommandOutputs(), "gcc -g -o program program.c") == Placeholder
    ensures OutputFor(CommandOutputs(), "javac *.java") == Placeholder
  {
  }

  /** One transcript line: a `{command, output, isExecuting}` record. */
  datatype Entry = Entry(command: string, output: string, isExecuting: bool)

  /** The line appended when `command` is revealed. */
  function EntryFor(outputs: map<string, string>, command: string): Entry {
    Entry(command, OutputFor(outputs, command), false)
  }

  /** The transcript after `cmds` have been revealed, one entry per command. */
  function Played(outputs: map<string, string>, cmds: seq<string>): (t: seq<Entry>)
    ensures |t| == |cmds|
  {
    if cmds == [] then []
    else Played(outputs, cmds[..|cmds| - 1]) + [EntryFor(outputs, cmds[|cmds| - 1])]
  }

  /** Entry `i` of the transcript is command `i`, with its looked-up output, and is not executing;
      so every output line (the `item.output &&` guard) is rendered. */
  lemma {:induction false} PlayedAt(outputs: map<string, string>, cmds: seq<string>, i: nat)
    requires i < |cmds|
    ensures Played(outputs, cmds)[i] == EntryFor(outputs, cmds[i])
    ensures Played(outputs, cmds)[i].command == cmds[i]
    ensures Played(outputs, cmds)[i].output != "" && !Played(outputs, cmds)[i].isExecuting
  {
    if i < |cmds| - 1 {
      PlayedAt(outputs, cmds[..|cmds| - 1], i);
    }
  }

  /** Revealing one more command appends exactly its entry. */
  lemma PlayedStep(outputs: map<string, string>, cmds: seq<string>, n: nat)
    requires n < |cmds|
    ensures Played(outputs, cmds[..n + 1]) == Played(outputs, cmds[..n]) + [EntryFor(outputs, cmds[n])]
  {
    assert cmds[..n + 1][..n] == cmds[..n];
  }

  /** The player of one terminal window. `cursor` is `currentCommandIndex`, `transcript` is
      `displayedCommands`, and `timerArmed` says whether a 2000 ms step is pending. */
  class Player {
    const commands: seq<string>
    const outputs: map<string, string>
    var cursor: nat
    var transcript: seq<Entry>
    var isTyping: bool
    var timerArmed: bool

    /** The transcript holds exactly the commands before the cursor; a pending step and the
        typing line both refer to a command that exists. */
    ghost predicate Valid()
      reads this
    {
      cursor <= |commands| &&
      transcript == Played(outputs, commands[..cursor]) &&
      (timerArmed ==> cursor < |commands|) &&
      (isTyping ==> cursor < |commands|)
    }

    /** The state before the first effect has run. */
    constructor (commands: seq<string>, outputs: map<string, string>)
      ensures Valid()
      ensures this.commands == commands && this.outputs == outputs
      ensures cursor == 0 && transcript == [] && !isTyping && !timerArmed
    {
      this.commands := commands;
      this.outputs := outputs;
      cursor := 0;
      transcript := [];
      isTyping := false;
      timerArmed := false;
    }

    /** The effect: while commands remain, show the typing line and arm the step timer.
        A re-run always follows the cleanup of the previous run, so at most one timer is armed. */
    method RunEffect()
      requires Valid()
      modifies this
      ensures Valid()
      ensures cursor == old(cursor) && transcript == old(transcript)
      ensures old(cursor) < |commands| ==> isTyping && timerArmed
      ensures old(cursor) >= |commands| ==> isTyping == old(isTyping) && timerArmed == old(timerArmed)
    {
      if cursor < |commands| {
        isTyping := true;
        timerArmed := true;
      }
    }

    /** The timer callback: append the entry for the command under the cursor, advance the
        cursor by one and stop typing. A timer that is not armed never fires. */
    method Fire()
      requires Valid()
      modifies this
      ensures Valid()
      ensures old(timerArmed) ==> cursor == old(cursor) + 1
      ensures old(timerArmed) ==> transcript == old(transcript) + [EntryFor(outputs, commands[old(cursor)])]
      ensures old(timerArmed) ==> !isTyping && !timerArmed
      ensures !old(timerArmed) ==> unchanged(this)
    {
      if timerArmed {
        var command := commands[cursor];
        PlayedStep(outputs, commands, cursor);
        transcript := transcript + [EntryFor(outputs, command)];
        cursor := cursor + 1;
        isTyping := false;
        timerArmed := false;
      }
    }

    /** One tick: the callback fires and, because the cursor moved, the effect runs again. */
    method Tick()
      requires Valid()
      modifies this
      ensures Valid()
      ensures old(timerArmed) ==> cursor == old(cursor) + 1
      ensures old(timerArmed) ==> transcript == old(transcript) + [EntryFor(outputs, commands[old(cursor)])]
      ensures old(timerArmed) ==> isTyping == timerArmed == (cursor < |commands|)
      ensures !old(timerArmed) ==> unchanged(this)
      ensures old(cursor) == |commands| ==> unchanged(this)
    {
      var armed := timerArmed;
      Fire();
      if armed {
        RunEffect();
      }
    }

    /** Unmounting (or re-running) the effect clears the pending timer, so its step never appends. */
    method Teardown()
      requires Valid()
      modifies this
      ensures Valid()
      ensures !timerArmed
      ensures cursor == old(cursor) && transcript == old(transcript) && isTyping == old(isTyping)
    {
      timerArmed := false;
    }

    /** The Reset button: back to the first command with an empty transcript and no typing line.
        When the cursor moved, the effect is cleaned up and runs again; when it was already 0,
        React does not re-run the effect and a pending timer stays armed. */
    method Reset()
      requires Valid()
      modifies this
      ensures Valid()
      ensures cursor == 0 && transcript == []
      ensures old(cursor) != 0 ==> isTyping == timerArmed == (|commands| > 0)
      ensures old(cursor) == 0 ==> !isTyping && timerArmed == old(timerArmed)
    {
      var moved := cursor != 0;
      cursor := 0;
      transcript := [];
      isTyping := false;
      if moved {
        timerArmed := false;
        RunEffect();
      }
    }

    /** The line with the blinking cursor is shown while a step is being typed. */
    predicate ShowsTypingLine()
      reads this
      ensures Valid() && ShowsTypingLine() ==> cursor < |commands|
    {
      isTyping
    }

    /** The "Next command in 2s..." hint: shown exactly when no step is being typed and some
        command has not yet reached the transcript. */
    predicate ShowsNextHint()
      reads this
      ensures Valid() ==> (ShowsNextHint() <==> !isTyping && |transcript| < |commands|)
    {
      !isTyping && cursor < |commands|
    }

    /** The command on the typing line exists, the typing line and the hint never show together,
        and once every command is shown neither of them is. */
    lemma DisplayConditions()
      requires Valid()
      ensures ShowsTypingLine() ==> cursor < |commands|
      ensures !(ShowsTypingLine() && ShowsNextHint())
      ensures cursor == |commands| ==> !ShowsTypingLine() && !ShowsNextHint()
    {
    }

    /** Entry `i` of the transcript is command `i` with its output. */
    lemma TranscriptAt(i: nat)
      requires Valid() && i < |transcript|
      ensures i < cursor && transcript[i] == EntryFor(outputs, commands[i])
    {
      PlayedAt(outputs, commands[..cursor], i);
    }
  }

  /** The playback of a two-command script where the second command has an empty canned output:
      after two ticks the transcript holds both, the second with the placeholder, and nothing more
      is ever appended. An unknown command is shown with the placeholder too. */
  method PlaybackScenario() {
    var p := new Player(["a", "b"], map["a" := "out-a", "b" := ""]);
    p.RunEffect();
    assert p.ShowsTypingLine();
    p.Tick();
    assert p.transcript == [Entry("a", "out-a", false)];
    p.Tick();
    assert p.transcript == [Entry("a", "out-a", false), Entry("b", Placeholder, false)];
    assert !p.ShowsTypingLine() && !p.ShowsNextHint();
    p.Tick();
    assert |p.transcript| == 2;

    var q := new Player(["zzz"], CommandOutputs());
    q.RunEffect();
    q.Tick();
    assert q.transcript == [Entry("zzz", Placeholder, false)];
  }

  /** A step cancelled by teardown never reaches the transcript. */
  method CancelledStepScenario() {
    var p := new Player(["a"], map["a" := "out-a"]);
    p.RunEffect();
    p.Teardown();
    p.Tick();
    assert p.transcript == [] && p.cursor == 0;
  }
}
