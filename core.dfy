/**
 * `Core` (pks/core.py): generating a knock sequence from a seed or from the
 * random number generator, rendering the knock daemon's configuration around
 * it, and applying it.
 */
module Core {
  import opened Wrappers
  import opened PyStrings
  import opened Configuration
  import opened Environment
  import opened Utils

  // ---------------------------------------------------------------------------
  // A sequence as text: `", ".join([str(p) for p in seq])`, and reading it back.

  /** `[str(p) for p in ports]` */
  function PortStrings(ports: seq<int>): (r: seq<string>)
    ensures |r| == |ports|
  {
    if ports == [] then [] else [IntToString(ports[0])] + PortStrings(ports[1..])
  }

  /** `", ".join([str(p) for p in ports])` */
  function RenderPorts(ports: seq<int>): string
  {
    Join(PortStrings(ports), ", ")
  }

  /** Leading blanks off, as `int(" 42")` ignores them. */
  function TrimLeft(s: string): (r: string)
    ensures r == [] || r[0] != ' '
  {
    if s != [] && s[0] == ' ' then TrimLeft(s[1..]) else s
  }

  /** Optionally signed decimal digits, the shape `str` gives an integer. */
  predicate IsIntText(s: string)
  {
    |s| >= 1 && forall k :: 0 <= k < |s| ==> IsDigit(s[k]) || (k == 0 && s[k] == '-')
  }

  function ReadPort(piece: string): Option<int>
  {
    var t := TrimLeft(piece);
    if IsIntText(t) then Some(ParseInt(t)) else None
  }

  function ReadPieces(pieces: seq<string>): Option<seq<int>>
  {
    if pieces == [] then Some([])
    else
      var head := ReadPort(pieces[0]);
      var rest := ReadPieces(pieces[1..]);
      if head.Some? && rest.Some? then Some([head.value] + rest.value) else None
  }

  /** Reads a comma-separated list of integers; `None` if some piece is not one. */
  function ReadPorts(s: string): Option<seq<int>>
  {
    if s == "" then Some([]) else ReadPieces(Split(s, ','))
  }

  lemma ReadPortOfString(p: int)
    ensures ReadPort(IntToString(p)) == Some(p)
  {
    ParseIntToString(p);
  }

  lemma ReadPiecesSpaced(x: string, rest: seq<string>)
    ensures ReadPieces([" " + x] + rest) == ReadPieces([x] + rest)
  {
    assert ([" " + x] + rest)[1..] == rest && ([x] + rest)[1..] == rest;
    assert (" " + x)[1..] == x;
  }

  /** Splitting a blank-led string: the blank stays at the front of the first piece. */
  lemma SplitSpaced(t: string)
    ensures Split(" " + t, ',') == [" " + Split(t, ',')[0]] + Split(t, ',')[1..]
  {
    assert (" " + t)[1..] == t;
  }

  /** Reading a rendered sequence gives the sequence back, so rendering loses nothing. */
  lemma {:induction false} ReadRenderPorts(ports: seq<int>)
    ensures ReadPorts(RenderPorts(ports)) == Some(ports)
  {
    if ports != [] {
      var head := IntToString(ports[0]);
      ReadPortOfString(ports[0]);
      assert ',' !in head;
      if |ports| == 1 {
        assert RenderPorts(ports) == head;
        SplitNoSeparator(head, ',');
        assert head != "" && [ports[0]] == ports;
        assert ReadPieces([head]) == Some([ports[0]]) by {
          assert [head][0] == head && [head][1..] == [];
          assert ReadPieces([]) == Some([]);
          assert ReadPort(head) == Some(ports[0]);
          assert [ports[0]] + [] == [ports[0]];
        }
      } else {
        var tail := RenderPorts(ports[1..]);
        ReadRenderPorts(ports[1..]);
        assert PortStrings(ports)[1..] == PortStrings(ports[1..]);
        assert RenderPorts(ports) == head + [','] + (" " + tail);
        SplitAtSeparator(head, ',', " " + tail);
        SplitSpaced(tail);
        var pieces := Split(tail, ',');
        assert tail != "" by {
          assert |IntToString(ports[1])| >= 1;
          assert |PortStrings(ports[1..])| >= 1;
          JoinLength(PortStrings(ports[1..]), ", ");
        }
        assert ReadPieces(pieces) == Some(ports[1..]);
        assert [" " + pieces[0]] + pieces[1..] == [" " + pieces[0]] + pieces[1..];
        ReadPiecesSpaced(pieces[0], pieces[1..]);
        assert [pieces[0]] + pieces[1..] == pieces;
        var all := [head] + ([" " + pieces[0]] + pieces[1..]);
        assert all[1..] == [" " + pieces[0]] + pieces[1..];
        assert [ports[0]] + ports[1..] == ports;
      }
    }
  }

  /** A join of non-empty pieces is not empty (a proof step of the rendering lemmas above). */
  lemma JoinLength(xs: seq<string>, sep: string)
    requires |xs| >= 1 && |xs[0]| >= 1
    ensures |Join(xs, sep)| >= 1
  {
  }

  /** Different sequences render differently. */
  lemma RenderPortsInjective(a: seq<int>, b: seq<int>)
    requires RenderPorts(a) == RenderPorts(b)
    ensures a == b
  {
    ReadRenderPorts(a);
    ReadRenderPorts(b);
  }

  predicate RenderedChar(ch: char)
  {
    IsDigit(ch) || ch == '-' || ch == ',' || ch == ' '
  }

  /** A rendered sequence holds only digits, minus signs, commas and blanks: never a line break. */
  lemma {:induction false} RenderPortsChars(ports: seq<int>)
    ensures forall k :: 0 <= k < |RenderPorts(ports)| ==> RenderedChar(RenderPorts(ports)[k])
  {
    if |ports| > 1 {
      RenderPortsChars(ports[1..]);
      assert PortStrings(ports)[1..] == PortStrings(ports[1..]);
      var head := IntToString(ports[0]);
      var tail := RenderPorts(ports[1..]);
      assert RenderPorts(ports) == head + ", " + tail;
      forall k | 0 <= k < |RenderPorts(ports)| ensures RenderedChar(RenderPorts(ports)[k]) {
        if k < |head| {
          assert RenderPorts(ports)[k] == head[k];
        } else if k >= |head| + 2 {
          assert RenderPorts(ports)[k] == tail[k - |head| - 2];
        }
      }
    }
  }

  // ---------------------------------------------------------------------------
  // The knock daemon's configuration.

  /** The text in front of the sequence on its line of the template. */
  const SequenceKey := "    sequence                = "

  /**
   * The lines of `knockd_conf`'s template: it opens with a line break and
   * closes with eight blanks. `network_interface` is handed to `format` but
   * appears nowhere in the template.
   */
  function KnockdLines(cfg: Config, ports: seq<int>): seq<string>
  {
    [ "",
      "[options]",
      "    logfile     = /var/log/knockd.log",
      "    interface   = any",
      "",
      "[opencloseSSH]",
      SequenceKey + RenderPorts(ports),
      "    seq_timeout             = 60",
      "    start_command           = " + "/sbin/iptables -I INPUT" + " -s %IP% -p tcp --dport " + IntToString(cfg.targetPort) + " -j ACCEPT",
      "    tcpflags                = syn",
      "    cmd_timeout             = 60",
      "    stop_command            = " + "/sbin/iptables -D INPUT" + " -s %IP% -p tcp --dport " + IntToString(cfg.targetPort) + " -j ACCEPT",
      "        " ]
  }

  /** `knockd_conf(new_sequence)` */
  function KnockdConf(cfg: Config, ports: seq<int>): string
  {
    Join(KnockdLines(cfg, ports), "\n")
  }

  /**
   * The configuration has thirteen lines. The interface is `any`, line 6 is
   * the sequence, which reads back as the given ports, and both iptables
   * commands open the target port.
   */
  lemma KnockdConfShape(cfg: Config, ports: seq<int>)
    ensures var lines := Split(KnockdConf(cfg, ports), '\n');
      && |lines| == 13
      && lines[3] == "    interface   = any"
      && StartsWith(lines[6], SequenceKey)
      && ReadPorts(lines[6][|SequenceKey|..]) == Some(ports)
      && lines[8] == "    start_command           = " + "/sbin/iptables -I INPUT" + " -s %IP% -p tcp --dport " + IntToString(cfg.targetPort) + " -j ACCEPT"
      && lines[11] == "    stop_command            = " + "/sbin/iptables -D INPUT" + " -s %IP% -p tcp --dport " + IntToString(cfg.targetPort) + " -j ACCEPT"
  {
    var lines := KnockdLines(cfg, ports);
    KnockdLinesUnbroken(cfg, ports);
    SplitJoin(lines, '\n');
    assert lines[6][|SequenceKey|..] == RenderPorts(ports);
    ReadRenderPorts(ports);
  }

  /** No line of the template holds a line break, so splitting the file at line breaks gives the lines back. */
  lemma KnockdLinesUnbroken(cfg: Config, ports: seq<int>)
    ensures forall i :: 0 <= i < |KnockdLines(cfg, ports)| ==> '\n' !in KnockdLines(cfg, ports)[i]
  {
    var port := IntToString(cfg.targetPort);
    PortUnbroken(cfg.targetPort);
    RenderPortsUnbroken(ports);
    TemplatePart1Unbroken();
    TemplatePart2Unbroken();
    TemplatePart3Unbroken();
    TemplatePart4Unbroken();
    TemplatePart5Unbroken();
    TemplatePart6Unbroken();
    TemplatePart7Unbroken();
    IptablesUnbroken("    start_command           = ", "/sbin/iptables -I INPUT", port);
    IptablesUnbroken("    stop_command            = ", "/sbin/iptables -D INPUT", port);
  }

  lemma PortUnbroken(p: int)
    ensures '\n' !in IntToString(p)
  {
    var s := IntToString(p);
    assert forall k :: 0 <= k < |s| ==> s[k] != '\n';
  }

  lemma RenderPortsUnbroken(ports: seq<int>)
    ensures '\n' !in RenderPorts(ports)
  {
    RenderPortsChars(ports);
    assert forall k :: 0 <= k < |RenderPorts(ports)| ==> RenderPorts(ports)[k] != '\n';
  }

  /**
   * The fixed parts of the template hold no line break. These are split-out
   * steps of `KnockdLinesUnbroken`, a few literals each, so that no single
   * proof has to unfold every literal of the template at once.
   */
  lemma TemplatePart1Unbroken()
    ensures '\n' !in "[options]" && '\n' !in "    logfile     = /var/log/knockd.log"
  {
  }

  lemma TemplatePart2Unbroken()
    ensures '\n' !in "    interface   = any" && '\n' !in "[opencloseSSH]"
  {
  }

  lemma TemplatePart3Unbroken()
    ensures '\n' !in SequenceKey && '\n' !in "    seq_timeout             = 60"
  {
  }

  lemma TemplatePart4Unbroken()
    ensures '\n' !in "    tcpflags                = syn" && '\n' !in "    cmd_timeout             = 60"
  {
  }

  lemma TemplatePart5Unbroken()
    ensures '\n' !in "        " && '\n' !in "    start_command           = "
  {
  }

  lemma TemplatePart6Unbroken()
    ensures '\n' !in "/sbin/iptables -I INPUT" && '\n' !in "    stop_command            = "
  {
  }

  lemma TemplatePart7Unbroken()
    ensures '\n' !in "/sbin/iptables -D INPUT"
  {
  }

  lemma IptablesUnbroken(key: string, command: string, port: string)
    requires '\n' !in key && '\n' !in command && '\n' !in port
    ensures '\n' !in key + command + " -s %IP% -p tcp --dport " + port + " -j ACCEPT"
  {
  }

  /** The configuration determines the sequence: two sequences never render the same file. */
  lemma KnockdConfInjective(cfg: Config, a: seq<int>, b: seq<int>)
    requires KnockdConf(cfg, a) == KnockdConf(cfg, b)
    ensures a == b
  {
    KnockdConfShape(cfg, a);
    KnockdConfShape(cfg, b);
  }

  /** The configured network interface has no influence on the file. */
  lemma KnockdConfIgnoresInterface(cfg: Config, ports: seq<int>, iface: string)
    ensures KnockdConf(cfg.(networkInterface := iface), ports) == KnockdConf(cfg, ports)
  {
  }

  // ---------------------------------------------------------------------------
  // Generating and applying a sequence.

  /** `if seed:`: `None` and `0` are false. */
  predicate Truthy(seed: Option<int>)
  {
    seed.Some? && seed.value != 0
  }

  /** The seeded candidates: the SHA-256 digest of `str(i + seed)` read as a number, for each index. */
  function SeededCandidates(sha256: string -> nat, num: nat, seed: int): (r: seq<int>)
    ensures |r| == num
    ensures forall i :: 0 <= i < num ==> r[i] == sha256(IntToString(i + seed))
  {
    seq(num, i requires 0 <= i < num => sha256(IntToString(i + seed)))
  }

  /** The random candidates: draws `start`, `start + 1`, ... of `randint(first, last)`, all in the range. */
  function RandomCandidates(randint: RandomSource, start: nat, num: nat, first: int, last: int): (r: seq<int>)
    requires first <= last
    ensures |r| == num
    ensures forall i :: 0 <= i < num ==> first <= r[i] <= last && r[i] == randint(start + i, first, last)
  {
    seq(num, i requires 0 <= i < num => randint(start + i, first, last))
  }

  /**
   * `generate_new_sequence(num, seed)`: `num` candidates, all moved to
   * acceptable ports by `filter_port_list`. A truthy seed makes the result a
   * function of `num` and the seed alone; otherwise `num` numbers are drawn.
   */
  method GenerateNewSequence(cfg: Config, host: Host, num: nat, seed: Option<int>) returns (ports: seq<int>)
    requires HasExit(cfg)
    requires Truthy(seed) ==> cfg.firstPort + 2 <= cfg.lastPort
    modifies host`draws
    ensures |ports| == num
    ensures forall i :: 0 <= i < num ==> Acceptable(cfg, ports[i])
    ensures Truthy(seed) ==>
      host.draws == old(host.draws) && ports == FilterPorts(cfg, SeededCandidates(host.sha256, num, seed.value))
    ensures !Truthy(seed) ==>
      && host.draws == old(host.draws) + num
      && ports == FilterPorts(cfg, RandomCandidates(host.randint, old(host.draws), num, cfg.firstPort, cfg.lastPort))
  {
    var first, last := cfg.firstPort, cfg.lastPort;
    var candidates: array<int>;
    if Truthy(seed) {
      var digest := host.sha256;
      var s := seed.value;
      candidates := new int[num](i => digest(IntToString(i + s)));
      assert candidates[..] == SeededCandidates(host.sha256, num, s);
    } else {
      candidates := new int[num];
      for i := 0 to num
        invariant host.draws == old(host.draws) + i
        invariant forall k :: 0 <= k < i ==> candidates[k] == host.randint(old(host.draws) + k, first, last)
      {
        candidates[i] := host.RandInt(first, last);
      }
      assert candidates[..] == RandomCandidates(host.randint, old(host.draws), num, first, last);
    }
    FilterPortList(cfg, candidates);
    ports := candidates[..];
  }

  /** `configure_knockd(seq)`: the configuration file is replaced by the rendered template. */
  method ConfigureKnockd(cfg: Config, host: Host, ports: seq<int>)
    modifies host`files
    ensures host.files == old(host.files)[cfg.knockdConfigFile := KnockdConf(cfg, ports)]
  {
    host.WriteFile(cfg.knockdConfigFile, KnockdConf(cfg, ports));
  }

  /**
   * `set_open_sequence(seq)`: write the configuration, then restart the knock
   * daemon; whether the restart worked is not reported.
   */
  method SetOpenSequence(cfg: Config, host: Host, ports: seq<int>)
    modifies host`files, host`calls
    ensures host.files == old(host.files)[cfg.knockdConfigFile := KnockdConf(cfg, ports)]
    ensures host.calls == old(host.calls) + RestartCalls(host.exitCode, |old(host.calls)|, "knockd")
  {
    ConfigureKnockd(cfg, host, ports);
    var _ := RestartService(host, "knockd");
  }
}
