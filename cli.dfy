/** The argument handling of the command-line front end (src/cli/main.py)
    that decides where the recording goes and what it captures: the output
    path normalisation and the --region parser. Argument parsing by
    argparse, logging and the recording itself are not part of this module. */
module Cli {
  import opened Common
  import opened Text
  import opened Paths
  import opened Recorder

  /** The directory every user-given output file is moved into. */
  const CapturesDir: string := "captures"

  /** The status main exits with when --region cannot be used. */
  const RegionExitStatus: int := 1

  /** Why a --region value is refused: a piece that int() rejects (the
      ValueError branch), or a piece count other than four. */
  datatype RegionError = NotAnInteger(piece: string) | WrongCount(count: nat)

  /** What the recorder is pointed at. */
  datatype Target = AtRegion(region: Region) | AtMonitor(index: int)

  /** int(x.strip()) of one piece. */
  function Coordinate(piece: string): Option<int>
  {
    ParseInt(Strip(piece))
  }

  /** The list comprehension over the pieces with element conversion
      `parse`: the first piece that does not convert raises, otherwise every
      piece is converted, in order. */
  function ParseEach(pieces: seq<string>, parse: string -> Option<int>): (r: Result<seq<int>, RegionError>)
    ensures r.Ok? <==> forall i :: 0 <= i < |pieces| ==> parse(pieces[i]).Some?
    ensures r.Ok? ==> |r.value| == |pieces|
    ensures r.Ok? ==> forall i :: 0 <= i < |pieces| ==> parse(pieces[i]) == Some(r.value[i])
    ensures r.Err? ==> r.error.NotAnInteger?
  {
    if pieces == [] then Ok([])
    else
      var head := parse(pieces[0]);
      if head.None? then Err(NotAnInteger(pieces[0]))
      else
        var rest := ParseEach(pieces[1..], parse);
        if rest.Err? then Err(rest.error) else Ok([head.value] + rest.value)
  }

  /** [int(x.strip()) for x in pieces]. */
  function ParseCoords(pieces: seq<string>): (r: Result<seq<int>, RegionError>)
    ensures r.Ok? <==> forall i :: 0 <= i < |pieces| ==> Coordinate(pieces[i]).Some?
    ensures r.Ok? ==> |r.value| == |pieces|
    ensures r.Ok? ==> forall i :: 0 <= i < |pieces| ==> Coordinate(pieces[i]) == Some(r.value[i])
    ensures r.Err? ==> r.error.NotAnInteger?
  {
    ParseEach(pieces, Coordinate)
  }

  /** The piece the error names is the first piece that does not parse. */
  lemma {:induction false} ParseCoordsNamesFirstFailure(pieces: seq<string>)
    requires ParseCoords(pieces).Err?
    ensures exists i ::
      && 0 <= i < |pieces| && ParseCoords(pieces).error == NotAnInteger(pieces[i])
      && Coordinate(pieces[i]).None? && (forall j :: 0 <= j < i ==> Coordinate(pieces[j]).Some?)
  {
    if Coordinate(pieces[0]).None? {
      assert ParseCoords(pieces).error == NotAnInteger(pieces[0]);
    } else {
      var tail := pieces[1..];
      ParseCoordsNamesFirstFailure(tail);
      assert ParseCoords(pieces) == ParseCoords(tail);
      var i :| 0 <= i < |tail| && ParseCoords(tail).error == NotAnInteger(tail[i])
        && Coordinate(tail[i]).None? && (forall j :: 0 <= j < i ==> Coordinate(tail[j]).Some?);
      assert pieces[i + 1] == tail[i];
      forall j | 0 <= j < i + 1 ensures Coordinate(pieces[j]).Some? {
        if j > 0 {
          assert pieces[j] == tail[j - 1];
        }
      }
    }
  }

  /** The --region value x,y,width,height: exactly four integer pieces give
      the region in that order; there is no range check. */
  function ParseRegion(text: string): (r: Result<Region, RegionError>)
    ensures var pieces := Split(text, ',');
      r.Ok? <==> |pieces| == 4 && forall i :: 0 <= i < 4 ==> Coordinate(pieces[i]).Some?
    ensures var pieces := Split(text, ',');
      r.Ok? ==>
        && Coordinate(pieces[0]) == Some(r.value.x) && Coordinate(pieces[1]) == Some(r.value.y)
        && Coordinate(pieces[2]) == Some(r.value.width) && Coordinate(pieces[3]) == Some(r.value.height)
    ensures r.Err? && r.error.WrongCount? ==> r.error.count == |Split(text, ',')| != 4
  {
    var coords := ParseCoords(Split(text, ','));
    if coords.Err? then Err(coords.error)
    else if |coords.value| != 4 then Err(WrongCount(|coords.value|))
    else Ok(Region(coords.value[0], coords.value[1], coords.value[2], coords.value[3]))
  }

  /** The capture target: without a (non-empty) --region the monitor is used;
      otherwise the parsed region, and a refused region ends main with
      RegionExitStatus. */
  function SelectTarget(region: Option<string>, monitor: int): (r: Result<Target, RegionError>)
    ensures region.None? || region.value == "" ==> r == Ok(AtMonitor(monitor))
    ensures region.Some? && region.value != "" ==>
      (r.Ok? <==> ParseRegion(region.value).Ok?) && (r.Ok? ==> r.value == AtRegion(ParseRegion(region.value).value))
  {
    if region.None? || region.value == "" then Ok(AtMonitor(monitor))
    else
      var g := ParseRegion(region.value);
      if g.Err? then Err(g.error) else Ok(AtRegion(g.value))
  }

  /** str(n) of every number, the way a user would type them. */
  function Texts(ns: seq<int>): (r: seq<string>)
    ensures |r| == |ns| && forall i :: 0 <= i < |ns| ==> r[i] == IntToString(ns[i])
  {
    seq(|ns|, i requires 0 <= i < |ns| => IntToString(ns[i]))
  }

  /** A printed number survives strip and int(). */
  lemma CoordinateOfText(n: int)
    ensures ',' !in IntToString(n)
    ensures Coordinate(IntToString(n)) == Some(n)
  {
    var s := IntToString(n);
    assert !IsSpace(s[0]) && !IsSpace(s[|s| - 1]);
    StripFixesTrimmed(s);
    IntRoundTrip(n);
  }

  /** Any list of integers written with commas between them is accepted
      exactly when there are four of them, and then reads back as the
      region in order, whatever the signs; any other count is refused. */
  lemma RegionOfNumbers(ns: seq<int>)
    requires |ns| >= 1
    ensures ParseRegion(Join(Texts(ns), ',')) ==
      if |ns| == 4 then Ok(Region(ns[0], ns[1], ns[2], ns[3])) else Err(WrongCount(|ns|))
  {
    var pieces := Texts(ns);
    forall i | 0 <= i < |pieces| ensures ',' !in pieces[i] && Coordinate(pieces[i]) == Some(ns[i]) {
      CoordinateOfText(ns[i]);
    }
    SplitJoin(pieces, ',');
    var coords := ParseCoords(pieces);
    assert coords.Ok?;
    assert forall i :: 0 <= i < |ns| ==> coords.value[i] == ns[i];
  }

  /** The output file main records to. With no (or an empty) --output the
      generated name is used. A relative path, or an absolute one whose text
      does not contain the absolute captures directory, is replaced by the
      captures directory and the path's last component; any other absolute
      path is kept as given. `cwd` is the working directory the relative
      captures directory is resolved against. */
  function OutputFile(output: Option<string>, generated: string, cwd: string): string
  {
    if output.None? || output.value == "" then generated
    else
      var p := output.value;
      if IsAbsolute(p) && !Contains(Normalize(p), Child(cwd, CapturesDir)) then Child(CapturesDir, Name(p))
      else if !IsAbsolute(p) then Child(CapturesDir, Name(p))
      else p
  }

  /** The output paths that are moved into the captures directory. */
  predicate Relocated(p: string, cwd: string)
  {
    !IsAbsolute(p) || !Contains(Normalize(p), Child(cwd, CapturesDir))
  }

  /** A component is its own path. */
  lemma PartsOfComponent(c: string)
    requires CleanPart(c)
    ensures Parts(c) == [c]
  {
    SplitWithoutSeparator(c, '/');
    CleanKeepsClean([c]);
  }

  /** captures/<name>: a relative path of two components whose name is the
      given one. */
  lemma CapturesChild(name: string)
    requires CleanPart(name)
    ensures Child(CapturesDir, name) == CapturesDir + "/" + name
    ensures !IsAbsolute(Child(CapturesDir, name))
    ensures Parts(Child(CapturesDir, name)) == [CapturesDir, name]
    ensures Name(Child(CapturesDir, name)) == name
  {
    PartsOfComponent(CapturesDir);
    PartsOfComponent(name);
    JoinCons(CapturesDir, [name], '/');
    PartsOfRender(false, [CapturesDir, name]);
  }

  /** Without --output the generated name is used unchanged. */
  lemma NoOutputUsesGenerated(generated: string, cwd: string)
    ensures OutputFile(None, generated, cwd) == generated
    ensures OutputFile(Some(""), generated, cwd) == generated
  {
  }

  /** A relative path, or an absolute one outside the captures directory,
      becomes captures/<its name>: the intermediate directories are dropped.
      Any other absolute path is left alone. */
  lemma OutputFileMeaning(p: string, generated: string, cwd: string)
    requires p != "" && Name(p) != ""
    ensures Relocated(p, cwd) ==> OutputFile(Some(p), generated, cwd) == CapturesDir + "/" + Name(p)
    ensures Relocated(p, cwd) ==> Parts(OutputFile(Some(p), generated, cwd)) == [CapturesDir, Name(p)]
    ensures !Relocated(p, cwd) ==> OutputFile(Some(p), generated, cwd) == p
  {
    if Relocated(p, cwd) {
      CapturesChild(Name(p));
    }
  }

  /** Normalising an already normalised output path changes nothing. */
  lemma OutputFileIdempotent(p: string, generated: string, cwd: string)
    requires p != "" && Name(p) != ""
    ensures var q := OutputFile(Some(p), generated, cwd);
      OutputFile(Some(q), generated, cwd) == q
  {
    var q := OutputFile(Some(p), generated, cwd);
    if Relocated(p, cwd) {
      CapturesChild(Name(p));
      assert q == Child(CapturesDir, Name(p));
      assert q != "" && !IsAbsolute(q) && Name(q) == Name(p);
    }
  }
}
