/** How ffmpeg reads its argument vector: options apply to the next `-i`
    input, or, after the last input, to the output; a few options are
    switches without a value; the final bare word is the output URL. The
    encoder's argument builders are checked against this reading. */
module CommandLine {
  import opened Common

  /** One option as ffmpeg sees it. */
  datatype Setting = Opt(name: string, value: string) | Switch(name: string)

  /** An input file with the options that precede its `-i`. */
  datatype Input = Input(settings: seq<Setting>, url: string)

  /** A whole invocation: inputs in order, then output options and URL. */
  datatype Invocation = Invocation(inputs: seq<Input>, outputSettings: seq<Setting>, output: string)

  /** The value-less options the recorder uses. */
  const Switches: set<string> := {"-y", "-shortest"}

  predicate IsFlag(t: string)
  {
    |t| > 0 && t[0] == '-'
  }

  predicate GoodSetting(s: Setting)
  {
    match s
    case Opt(n, _) => IsFlag(n) && n != "-i" && n !in Switches
    case Switch(n) => n in Switches
  }

  predicate GoodSettings(ss: seq<Setting>)
  {
    forall i :: 0 <= i < |ss| ==> GoodSetting(ss[i])
  }

  predicate GoodInputs(ins: seq<Input>)
  {
    forall i :: 0 <= i < |ins| ==> GoodSettings(ins[i].settings)
  }

  /** An invocation whose argument vector ffmpeg reads unambiguously. */
  predicate WellFormed(inv: Invocation)
  {
    GoodInputs(inv.inputs) && GoodSettings(inv.outputSettings) && !IsFlag(inv.output)
  }

  function RenderSetting(s: Setting): seq<string>
  {
    match s
    case Opt(n, v) => [n, v]
    case Switch(n) => [n]
  }

  function RenderSettings(ss: seq<Setting>): seq<string>
  {
    if ss == [] then [] else RenderSetting(ss[0]) + RenderSettings(ss[1..])
  }

  function RenderInputs(ins: seq<Input>): seq<string>
  {
    if ins == [] then [] else RenderSettings(ins[0].settings) + ["-i", ins[0].url] + RenderInputs(ins[1..])
  }

  /** The argument vector of an invocation. */
  function Argv(inv: Invocation): seq<string>
  {
    ["ffmpeg"] + RenderInputs(inv.inputs) + RenderSettings(inv.outputSettings) + [inv.output]
  }

  /** One step of RenderSettings at every position, for unrolling it over a
      list of known length. */
  lemma RenderSettingsSteps(ss: seq<Setting>)
    ensures RenderSettings(ss[|ss|..]) == []
    ensures forall i :: 0 <= i < |ss| ==> RenderSettings(ss[i..]) == RenderSetting(ss[i]) + RenderSettings(ss[i + 1..])
  {
    forall i | 0 <= i < |ss|
      ensures RenderSettings(ss[i..]) == RenderSetting(ss[i]) + RenderSettings(ss[i + 1..])
    {
      assert ss[i..][1..] == ss[i + 1..];
    }
  }

  /** Rendering distributes over concatenation. */
  lemma {:induction false} RenderSettingsAppend(a: seq<Setting>, b: seq<Setting>)
    ensures RenderSettings(a + b) == RenderSettings(a) + RenderSettings(b)
  {
    if a == [] {
      assert a + b == b;
    } else {
      assert (a + b)[0] == a[0] && (a + b)[1..] == a[1..] + b;
      RenderSettingsAppend(a[1..], b);
    }
  }

  /** Three settings render one after another. */
  lemma RenderThree(x: Setting, y: Setting, z: Setting)
    ensures RenderSettings([x, y, z]) == RenderSetting(x) + RenderSetting(y) + RenderSetting(z)
  {
    assert [x, y, z][1..] == [y, z] && [y, z][1..] == [z] && [z][1..] == [];
    assert RenderSettings([z]) == RenderSetting(z) + [];
    assert RenderSettings([y, z]) == RenderSetting(y) + RenderSettings([z]);
  }

  /** Reads the tokens after the program name; `pending` holds the options
      seen since the last input. */
  function ParseTokens(tokens: seq<string>, pending: seq<Setting>, inputs: seq<Input>): Option<Invocation>
    decreases |tokens|
  {
    if tokens == [] then None
    else if tokens[0] in Switches then ParseTokens(tokens[1..], pending + [Switch(tokens[0])], inputs)
    else if tokens[0] == "-i" then
      if |tokens| < 2 then None else ParseTokens(tokens[2..], [], inputs + [Input(pending, tokens[1])])
    else if IsFlag(tokens[0]) then
      if |tokens| < 2 then None else ParseTokens(tokens[2..], pending + [Opt(tokens[0], tokens[1])], inputs)
    else if |tokens| == 1 then Some(Invocation(inputs, pending, tokens[0]))
    else None
  }

  function Parse(argv: seq<string>): Option<Invocation>
  {
    if argv == [] || argv[0] != "ffmpeg" then None else ParseTokens(argv[1..], [], [])
  }

  lemma {:induction false} ParseSettings(ss: seq<Setting>, rest: seq<string>, pending: seq<Setting>, inputs: seq<Input>)
    requires GoodSettings(ss)
    ensures ParseTokens(RenderSettings(ss) + rest, pending, inputs) == ParseTokens(rest, pending + ss, inputs)
  {
    if ss == [] {
      assert pending + ss == pending;
      assert RenderSettings(ss) + rest == rest;
    } else {
      var tail := RenderSettings(ss[1..]) + rest;
      assert GoodSettings(ss[1..]) by {
        forall i | 0 <= i < |ss[1..]| ensures GoodSetting(ss[1..][i]) {
          assert ss[1..][i] == ss[i + 1];
        }
      }
      ParseSettings(ss[1..], rest, pending + [ss[0]], inputs);
      assert pending + [ss[0]] + ss[1..] == pending + ss;
      assert GoodSetting(ss[0]);
      match ss[0]
      case Opt(n, v) =>
        assert RenderSettings(ss) + rest == [n, v] + tail;
        assert ([n, v] + tail)[2..] == tail;
      case Switch(n) =>
        assert RenderSettings(ss) + rest == [n] + tail;
        assert ([n] + tail)[1..] == tail;
    }
  }

  lemma {:induction false} ParseInputs(ins: seq<Input>, rest: seq<string>, inputs: seq<Input>)
    requires GoodInputs(ins)
    ensures ParseTokens(RenderInputs(ins) + rest, [], inputs) == ParseTokens(rest, [], inputs + ins)
  {
    if ins == [] {
      assert inputs + ins == inputs;
      assert RenderInputs(ins) + rest == rest;
    } else {
      var tail := RenderInputs(ins[1..]) + rest;
      assert GoodInputs(ins[1..]) by {
        forall i | 0 <= i < |ins[1..]| ensures GoodSettings(ins[1..][i].settings) {
          assert ins[1..][i] == ins[i + 1];
        }
      }
      assert GoodSettings(ins[0].settings);
      ParseInputs(ins[1..], rest, inputs + [ins[0]]);
      assert inputs + [ins[0]] + ins[1..] == inputs + ins;
      var after := ["-i", ins[0].url] + tail;
      assert RenderInputs(ins) + rest == RenderSettings(ins[0].settings) + after;
      ParseSettings(ins[0].settings, after, [], inputs);
      assert [] + ins[0].settings == ins[0].settings;
      assert after[2..] == tail;
    }
  }

  /** Reading the argument vector of a well-formed invocation gives the
      invocation back. */
  lemma ParseArgv(inv: Invocation)
    requires WellFormed(inv)
    ensures Parse(Argv(inv)) == Some(inv)
  {
    var argv := Argv(inv);
    var outTail := RenderSettings(inv.outputSettings) + [inv.output];
    assert argv[1..] == RenderInputs(inv.inputs) + outTail;
    ParseInputs(inv.inputs, outTail, []);
    assert [] + inv.inputs == inv.inputs;
    ParseSettings(inv.outputSettings, [inv.output], [], inv.inputs);
    assert [] + inv.outputSettings == inv.outputSettings;
  }

  /** The value of the first option with this name. */
  function Lookup(ss: seq<Setting>, name: string): Option<string>
  {
    if ss == [] then None
    else if ss[0].Opt? && ss[0].name == name then Some(ss[0].value)
    else Lookup(ss[1..], name)
  }

  /** One step of Lookup at every position, for unrolling it over a list of
      known length. */
  lemma LookupSteps(ss: seq<Setting>, name: string)
    ensures Lookup(ss[|ss|..], name) == None
    ensures forall i :: 0 <= i < |ss| ==> Lookup(ss[i..], name) == LookupStep(ss, i, name)
  {
    forall i | 0 <= i < |ss|
      ensures Lookup(ss[i..], name) == LookupStep(ss, i, name)
    {
      var t := ss[i..];
      assert t != [] && t[0] == ss[i];
      assert t[1..] == ss[i + 1..];
    }
  }

  /** What Lookup does at position i: answer, or move to the next setting. */
  function LookupStep(ss: seq<Setting>, i: nat, name: string): Option<string>
    requires i < |ss|
  {
    if ss[i].Opt? && ss[i].name == name then Some(ss[i].value) else Lookup(ss[i + 1..], name)
  }
}
