/** The OSFPGA toolchain back end: the timing-constraint (.sdc) lines, the build script
    (build.tcl) commands, and the clock-period table the toolchain object keeps. File
    writes and the toolchain run are left out; the generators return their lines. */
module OsFpga {
  import opened Wrappers

  /** Migen's unique id of a signal. Clocks are keyed by their signal and sorted by this id. */
  type Duid = nat

  /** A clock period in whole picoseconds (the toolchain rounds periods down to the picosecond). */
  type Picoseconds = nat

  /** One entry of the platform's source list: file path, language type and library. */
  datatype SourceFile = SourceFile(path: string, language: string, library: string)

  datatype BuildError =
    | UnknownDevice(device: string)
    | ClockConflict(clock: Duid, constrained: Picoseconds, requested: Picoseconds)

  // ---------------------------------------------------------------------------------------
  // Decimal rendering of a period, as Python's str() renders the rounded float
  // (a whole number of nanoseconds, a point, and at most three fractional digits).
  // ---------------------------------------------------------------------------------------

  predicate IsDigit(c: char) { '0' <= c <= '9' }

  predicate AllDigits(s: string) { forall i | 0 <= i < |s| :: IsDigit(s[i]) }

  function DigitValue(c: char): nat
    requires IsDigit(c)
  {
    c as int - '0' as int
  }

  function DigitChar(d: nat): (c: char)
    requires d < 10
    ensures IsDigit(c) && DigitValue(c) == d
  {
    ('0' as int + d) as char
  }

  /** The number a string of decimal digits denotes. */
  function DigitsValue(s: string): nat
    requires AllDigits(s)
    decreases |s|
  {
    if s == [] then 0 else DigitsValue(s[..|s| - 1]) * 10 + DigitValue(s[|s| - 1])
  }

  function Pow10(n: nat): nat
  {
    if n == 0 then 1 else 10 * Pow10(n - 1)
  }

  /** `str(n)` for a non-negative integer: its digits, without leading zeros. */
  function Decimal(n: nat): (s: string)
    ensures s != [] && AllDigits(s) && DigitsValue(s) == n
    ensures |s| > 1 ==> s[0] != '0'
    decreases n
  {
    if n < 10 then [DigitChar(n)]
    else
      var s := Decimal(n / 10) + [DigitChar(n % 10)];
      assert s[..|s| - 1] == Decimal(n / 10);
      s
  }

  /** The two digits of a number below one hundred. */
  lemma TwoDigits(g: nat)
    requires g < 100
    ensures DigitsValue([DigitChar(g / 10), DigitChar(g % 10)]) == g
  {
    var s := [DigitChar(g / 10), DigitChar(g % 10)];
    assert s[..1] == [DigitChar(g / 10)] && [DigitChar(g / 10)][..0] == [];
    assert DigitsValue(s[..1]) == g / 10;
    assert DigitsValue(s) == g / 10 * 10 + g % 10;
  }

  /** The three digits of a number below one thousand. */
  lemma ThreeDigits(f: nat)
    requires f < 1000
    ensures DigitsValue([DigitChar(f / 10 / 10), DigitChar(f / 10 % 10), DigitChar(f % 10)]) == f
  {
    var g := f / 10;
    var s := [DigitChar(g / 10), DigitChar(g % 10), DigitChar(f % 10)];
    assert s[..2] == [DigitChar(g / 10), DigitChar(g % 10)];
    TwoDigits(g);
  }

  /** The fractional digits of a period of `f` thousandths of a nanosecond beyond a whole
      nanosecond: the shortest digit string, "0" when there is no fraction. */
  function Fraction(f: nat): (s: string)
    requires f < 1000
    ensures 1 <= |s| <= 3 && AllDigits(s)
    ensures DigitsValue(s) * Pow10(3 - |s|) == f
    ensures f != 0 ==> s[|s| - 1] != '0'
    ensures f == 0 ==> s == "0"
  {
    if f == 0 then
      assert DigitsValue("0") == 0;
      "0"
    else if f % 100 == 0 then
      var s := [DigitChar(f / 100)];
      assert DigitsValue(s) == f / 100 && Pow10(2) == 100;
      s
    else if f % 10 == 0 then
      var g := f / 10;
      var s := [DigitChar(g / 10), DigitChar(g % 10)];
      TwoDigits(g);
      assert Pow10(1) == 10 && g * 10 == f;
      assert g % 10 != 0;
      s
    else
      var s := [DigitChar(f / 10 / 10), DigitChar(f / 10 % 10), DigitChar(f % 10)];
      ThreeDigits(f);
      s
  }

  /** `str(period)` for the period in nanoseconds, e.g. 10000 ps gives "10.0" and 8333 ps "8.333". */
  function FormatPeriod(ps: Picoseconds): string
  {
    Decimal(ps / 1000) + "." + Fraction(ps % 1000)
  }

  /** The position of the first '.' in `s`. */
  function DotIndex(s: string): (k: Option<nat>)
    ensures k.Some? ==> k.value < |s| && s[k.value] == '.'
    decreases |s|
  {
    if s == [] then None
    else if s[0] == '.' then Some(0)
    else
      match DotIndex(s[1..])
      case None => None
      case Some(k) => Some(k + 1)
  }

  /** Reads a period back from its decimal rendering: the inverse of FormatPeriod. */
  function ParsePeriod(s: string): Option<Picoseconds>
  {
    match DotIndex(s)
    case None => None
    case Some(k) =>
      var whole, frac := s[..k], s[k + 1..];
      if whole != [] && AllDigits(whole) && 1 <= |frac| <= 3 && AllDigits(frac)
      then Some(DigitsValue(whole) * 1000 + DigitsValue(frac) * Pow10(3 - |frac|))
      else None
  }

  lemma {:induction false} DotIndexAfterDigits(whole: string, rest: string)
    requires AllDigits(whole)
    ensures DotIndex(whole + "." + rest) == Some(|whole|)
    decreases |whole|
  {
    if whole != [] {
      var s := whole + "." + rest;
      assert s[1..] == whole[1..] + "." + rest;
      DotIndexAfterDigits(whole[1..], rest);
    }
  }

  /** The rendering of a period loses nothing: it reads back as the same number of picoseconds. */
  lemma FormatPeriodRoundTrip(ps: Picoseconds)
    ensures ParsePeriod(FormatPeriod(ps)) == Some(ps)
  {
    var whole, frac := Decimal(ps / 1000), Fraction(ps % 1000);
    var s := whole + "." + frac;
    DotIndexAfterDigits(whole, frac);
    assert s[..|whole|] == whole;
    assert s[|whole| + 1..] == frac;
  }

  /** A rendered period is digits, a point, and one to three digits, with no leading zero in
      the whole part. */
  lemma FormatPeriodShape(ps: Picoseconds)
    ensures DotIndex(FormatPeriod(ps)).Some?
    ensures var s, k := FormatPeriod(ps), DotIndex(FormatPeriod(ps)).value;
      0 < k && AllDigits(s[..k]) && (k > 1 ==> s[0] != '0') &&
      1 <= |s| - (k + 1) <= 3 && AllDigits(s[k + 1..])
  {
    var whole, frac := Decimal(ps / 1000), Fraction(ps % 1000);
    DotIndexAfterDigits(whole, frac);
    assert (whole + "." + frac)[..|whole|] == whole;
    assert (whole + "." + frac)[|whole| + 1..] == frac;
  }

  // ---------------------------------------------------------------------------------------
  // Timing constraints (.sdc)
  // ---------------------------------------------------------------------------------------

  /** The `create_clock` command for a clock called `name` in the generated Verilog. */
  function ClockLine(name: string, period: Picoseconds): string
  {
    "create_clock -name " + name + " -period " + FormatPeriod(period) + " [get_ports {" + name + "}]"
  }

  /** A `create_clock` line names the clock, and the text between `-period` and the port
      reference reads back as the clock's period. */
  lemma ClockLineFields(name: string, period: Picoseconds)
    ensures var line := ClockLine(name, period);
      var head, tail := "create_clock -name " + name + " -period ", " [get_ports {" + name + "}]";
      |head| + |tail| <= |line| && line[..|head|] == head && line[|line| - |tail|..] == tail &&
      ParsePeriod(line[|head|..|line| - |tail|]) == Some(period)
  {
    var head, tail := "create_clock -name " + name + " -period ", " [get_ports {" + name + "}]";
    var line := ClockLine(name, period);
    assert line == head + FormatPeriod(period) + tail;
    FormatPeriodRoundTrip(period);
    assert line[..|head|] == head;
    assert line[|line| - |tail|..] == tail;
    assert line[|head|..|line| - |tail|] == FormatPeriod(period);
  }

  predicate IsLeast(m: Duid, s: set<Duid>)
  {
    m in s && forall x | x in s :: m <= x
  }

  lemma LeastExists(s: set<Duid>)
    requires s != {}
    ensures exists m :: IsLeast(m, s)
    decreases s
  {
    var x :| x in s;
    var rest := s - {x};
    assert forall y | y in s :: y == x || y in rest;
    if rest == {} {
      assert IsLeast(x, s);
    } else {
      LeastExists(rest);
      var m :| IsLeast(m, rest);
      if x < m {
        assert IsLeast(x, s);
      } else {
        assert IsLeast(m, s);
      }
    }
  }

  /** The smallest id of a non-empty set of clocks. */
  ghost function Least(s: set<Duid>): (m: Duid)
    requires s != {}
    ensures IsLeast(m, s)
  {
    LeastExists(s);
    var m :| IsLeast(m, s);
    m
  }

  /** The clocks of a table in ascending id order: the order `sorted(..., key=duid)` gives. */
  ghost function AscendingDuids(s: set<Duid>): (order: seq<Duid>)
    ensures forall x | x in order :: x in s
    decreases s
  {
    if s == {} then [] else [Least(s)] + AscendingDuids(s - {Least(s)})
  }

  /** The ascending order lists every clock of the set, and no clock twice. */
  lemma {:induction false} AscendingDuidsComplete(s: set<Duid>)
    ensures |AscendingDuids(s)| == |s|
    ensures forall x | x in s :: x in AscendingDuids(s)
    decreases s
  {
    if s != {} {
      var m := Least(s);
      var rest := s - {m};
      AscendingDuidsComplete(rest);
      assert AscendingDuids(s) == [m] + AscendingDuids(rest);
      assert s == rest + {m};
      forall x | x in s ensures x in AscendingDuids(s) {
        if x != m { assert x in rest; }
      }
    }
  }

  /** The ascending order is strictly increasing in the clocks' ids. */
  lemma {:induction false} AscendingDuidsIncreasing(s: set<Duid>)
    ensures forall i, j | 0 <= i < j < |AscendingDuids(s)| :: AscendingDuids(s)[i] < AscendingDuids(s)[j]
    decreases s
  {
    if s != {} {
      var m := Least(s);
      var r := AscendingDuids(s - {m});
      AscendingDuidsIncreasing(s - {m});
      assert AscendingDuids(s) == [m] + r;
      assert forall x | x in r :: m < x;
      forall i, j | 0 <= i < j < |AscendingDuids(s)| ensures AscendingDuids(s)[i] < AscendingDuids(s)[j] {
        assert AscendingDuids(s)[j] == r[j - 1] && r[j - 1] in r;
        if i > 0 { assert AscendingDuids(s)[i] == r[i - 1]; }
      }
    }
  }

  /** One `create_clock` line per clock of `order`, with the name the Verilog namespace gives it. */
  function ClockLines(order: seq<Duid>, clocks: map<Duid, Picoseconds>, nameOf: Duid -> string): seq<string>
    requires forall d | d in order :: d in clocks
  {
    if order == [] then []
    else [ClockLine(nameOf(order[0]), clocks[order[0]])] + ClockLines(order[1..], clocks, nameOf)
  }

  lemma {:induction false} ClockLinesAt(order: seq<Duid>, clocks: map<Duid, Picoseconds>, nameOf: Duid -> string)
    requires forall d | d in order :: d in clocks
    ensures |ClockLines(order, clocks, nameOf)| == |order|
    ensures forall i | 0 <= i < |order| ::
      ClockLines(order, clocks, nameOf)[i] == ClockLine(nameOf(order[i]), clocks[order[i]])
  {
    if order != [] {
      ClockLinesAt(order[1..], clocks, nameOf);
    }
  }

  /** The lines of the .sdc file for a clock table. */
  ghost function SdcLines(clocks: map<Duid, Picoseconds>, nameOf: Duid -> string): (lines: seq<string>)
    ensures |lines| == |clocks|
  {
    AscendingDuidsComplete(clocks.Keys);
    ClockLinesAt(AscendingDuids(clocks.Keys), clocks, nameOf);
    ClockLines(AscendingDuids(clocks.Keys), clocks, nameOf)
  }

  /** The .sdc file has one line per constrained clock, each clock's line giving its own
      name and period, and the lines follow the clocks' ids in strictly ascending order. */
  lemma SdcLinesLayout(clocks: map<Duid, Picoseconds>, nameOf: Duid -> string)
    ensures var order := AscendingDuids(clocks.Keys);
      |order| == |clocks| && |SdcLines(clocks, nameOf)| == |clocks| &&
      (forall c | c in clocks :: c in order) &&
      (forall i, j | 0 <= i < j < |order| :: order[i] < order[j]) &&
      (forall i | 0 <= i < |order| ::
        order[i] in clocks && SdcLines(clocks, nameOf)[i] == ClockLine(nameOf(order[i]), clocks[order[i]]))
  {
    AscendingDuidsComplete(clocks.Keys);
    AscendingDuidsIncreasing(clocks.Keys);
    ClockLinesAt(AscendingDuids(clocks.Keys), clocks, nameOf);
  }

  /** `_build_sdc`: visits the clocks in ascending id order and appends one line per clock. */
  method BuildSdc(clocks: map<Duid, Picoseconds>, nameOf: Duid -> string) returns (sdc: seq<string>)
    ensures sdc == SdcLines(clocks, nameOf)
  {
    sdc := [];
    var remaining := clocks.Keys;
    while remaining != {}
      invariant remaining <= clocks.Keys
      invariant SdcLines(clocks, nameOf) == sdc + ClockLines(AscendingDuids(remaining), clocks, nameOf)
      decreases remaining
    {
      LeastExists(remaining);
      var clk :| clk in remaining && IsLeast(clk, remaining);
      assert clk == Least(remaining);
      sdc := sdc + [ClockLine(nameOf(clk), clocks[clk])];
      remaining := remaining - {clk};
    }
  }

  // ---------------------------------------------------------------------------------------
  // Build script (.tcl)
  // ---------------------------------------------------------------------------------------

  /** The only device the toolchain knows, and the macro it stands for. */
  const DeviceMacros: map<string, string> := map["test" := "P1=10  P2=20"]

  /** The commands that run the flow, in the order the script issues them. */
  const FlowCommands: seq<string> := ["synth", "packing", "place", "route", "sta", "power", "bitstream"]

  function IncludeCommands(paths: seq<string>): seq<string>
    decreases |paths|
  {
    if paths == [] then []
    else IncludeCommands(paths[..|paths| - 1]) + ["add_include_path " + paths[|paths| - 1]]
  }

  function DesignFileCommands(files: seq<SourceFile>): seq<string>
    decreases |files|
  {
    if files == [] then []
    else DesignFileCommands(files[..|files| - 1]) + ["add_design_file " + files[|files| - 1].path]
  }

  /** The whole build script for a device whose macro is `macro`: twelve fixed commands besides
      one per include path and one per source file. */
  function TclScript(buildName: string, macro: string, includePaths: seq<string>, files: seq<SourceFile>)
    : (script: seq<string>)
    ensures |script| == 12 + |includePaths| + |files|
  {
    IncludeCommandsAt(includePaths);
    DesignFileCommandsAt(files);
    ["create_design " + buildName, "set_macro " + macro, "add_include_path ./"]
    + IncludeCommands(includePaths)
    + DesignFileCommands(files)
    + ["set_top_module " + buildName, "add_constraint_file " + buildName + ".sdc"]
    + FlowCommands
  }

  lemma {:induction false} IncludeCommandsAt(paths: seq<string>)
    ensures |IncludeCommands(paths)| == |paths|
    ensures forall k | 0 <= k < |paths| :: IncludeCommands(paths)[k] == "add_include_path " + paths[k]
    decreases |paths|
  {
    if paths != [] {
      IncludeCommandsAt(paths[..|paths| - 1]);
    }
  }

  lemma {:induction false} DesignFileCommandsAt(files: seq<SourceFile>)
    ensures |DesignFileCommands(files)| == |files|
    ensures forall k | 0 <= k < |files| :: DesignFileCommands(files)[k] == "add_design_file " + files[k].path
    decreases |files|
  {
    if files != [] {
      DesignFileCommandsAt(files[..|files| - 1]);
    }
  }

  /** The script opens the design, sets the device macro, then adds the current directory
      as the first include path. */
  lemma TclScriptOpening(buildName: string, macro: string, includePaths: seq<string>, files: seq<SourceFile>)
    ensures var tcl := TclScript(buildName, macro, includePaths, files);
      |tcl| >= 3 &&
      tcl[0] == "create_design " + buildName &&
      tcl[1] == "set_macro " + macro &&
      tcl[2] == "add_include_path ./"
  {
  }

  /** After `./`, the script adds each include path once, in the order given. */
  lemma TclScriptIncludePaths(buildName: string, macro: string, includePaths: seq<string>, files: seq<SourceFile>)
    ensures var tcl := TclScript(buildName, macro, includePaths, files);
      |tcl| >= 3 + |includePaths| &&
      forall k | 0 <= k < |includePaths| :: tcl[3 + k] == "add_include_path " + includePaths[k]
  {
    IncludeCommandsAt(includePaths);
  }

  /** Then it adds each source file once, by path alone, in the order given. */
  lemma TclScriptDesignFiles(buildName: string, macro: string, includePaths: seq<string>, files: seq<SourceFile>)
    ensures var tcl := TclScript(buildName, macro, includePaths, files);
      |tcl| >= 3 + |includePaths| + |files| &&
      forall k | 0 <= k < |files| :: tcl[3 + |includePaths| + k] == "add_design_file " + files[k].path
  {
    IncludeCommandsAt(includePaths);
    DesignFileCommandsAt(files);
  }

  /** The script ends by naming the top module and the constraint file, then runs the seven
      flow steps from synthesis to bitstream. */
  lemma TclScriptClosing(buildName: string, macro: string, includePaths: seq<string>, files: seq<SourceFile>)
    ensures var tcl := TclScript(buildName, macro, includePaths, files);
      |tcl| >= 9 &&
      tcl[|tcl| - 9..] ==
        ["set_top_module " + buildName, "add_constraint_file " + buildName + ".sdc",
         "synth", "packing", "place", "route", "sta", "power", "bitstream"]
  {
    var tcl := TclScript(buildName, macro, includePaths, files);
    var head := ["create_design " + buildName, "set_macro " + macro, "add_include_path ./"]
      + IncludeCommands(includePaths) + DesignFileCommands(files);
    assert tcl == head + (["set_top_module " + buildName, "add_constraint_file " + buildName + ".sdc"] + FlowCommands);
    assert tcl[|head|..] == tcl[|tcl| - 9..];
  }

  /** `_build_tcl`: the device is looked up first (an unknown one raises a lookup error), then
      the commands are appended in order. The `name` argument is not used. */
  method BuildTcl(name: string, device: string, files: seq<SourceFile>, buildName: string, includePaths: seq<string>)
    returns (r: Result<seq<string>, BuildError>)
    ensures r.Ok? <==> device == "test"
    ensures r.Err? ==> r.error == UnknownDevice(device)
    ensures r.Ok? ==> r.value == TclScript(buildName, "P1=10  P2=20", includePaths, files)
  {
    var tcl: seq<string> := [];
    tcl := tcl + ["create_design " + buildName];

    if device !in DeviceMacros {
      return Err(UnknownDevice(device));
    }
    var macro := DeviceMacros[device];
    tcl := tcl + ["set_macro " + macro];

    tcl := tcl + ["add_include_path ./"];
    for i := 0 to |includePaths|
      invariant tcl == ["create_design " + buildName, "set_macro " + macro, "add_include_path ./"]
        + IncludeCommands(includePaths[..i])
    {
      assert includePaths[..i + 1][..i] == includePaths[..i];
      tcl := tcl + ["add_include_path " + includePaths[i]];
    }
    assert includePaths[..|includePaths|] == includePaths;

    ghost var opening := tcl;
    for i := 0 to |files|
      invariant tcl == opening + DesignFileCommands(files[..i])
    {
      assert files[..i + 1][..i] == files[..i];
      tcl := tcl + ["add_design_file " + files[i].path];
    }
    assert files[..|files|] == files;

    tcl := tcl + ["set_top_module " + buildName];
    tcl := tcl + ["add_constraint_file " + buildName + ".sdc"];
    tcl := tcl + ["synth"];
    tcl := tcl + ["packing"];
    tcl := tcl + ["place"];
    tcl := tcl + ["route"];
    tcl := tcl + ["sta"];
    tcl := tcl + ["power"];
    tcl := tcl + ["bitstream"];
    r := Ok(tcl);
  }

  // ---------------------------------------------------------------------------------------
  // The toolchain object and its clock table
  // ---------------------------------------------------------------------------------------

  class Toolchain {
    /** The name of the toolchain executable. */
    const toolchain: string
    /** The period constraint of each constrained clock. */
    var clocks: map<Duid, Picoseconds>
    /** Every constraint accepted so far, in call order. */
    ghost var accepted: seq<(Duid, Picoseconds)>

    /** Every accepted constraint is still in force, and every clock in the table was
        constrained by an accepted call. */
    ghost predicate Valid()
      reads this
    {
      (forall i | 0 <= i < |accepted| :: accepted[i].0 in clocks && clocks[accepted[i].0] == accepted[i].1) &&
      (forall c | c in clocks :: (c, clocks[c]) in accepted)
    }

    constructor (toolchain: string)
      ensures Valid()
      ensures this.toolchain == toolchain && clocks == map[] && accepted == []
    {
      this.toolchain := toolchain;
      clocks := map[];
      accepted := [];
    }

    /** `add_period_constraint`: constrains `clk` to `period`, refusing a clock that already
        has a different period. */
    method AddPeriodConstraint(clk: Duid, period: Picoseconds) returns (r: Outcome<BuildError>)
      requires Valid()
      modifies this
      ensures Valid()
      ensures r.Fail? <==> clk in old(clocks) && old(clocks)[clk] != period
      ensures r.Fail? ==>
        r.error == ClockConflict(clk, old(clocks)[clk], period) &&
        clocks == old(clocks) && accepted == old(accepted)
      ensures r.Pass? ==> clocks == old(clocks)[clk := period] && accepted == old(accepted) + [(clk, period)]
      ensures clk in old(clocks) && old(clocks)[clk] == period ==> clocks == old(clocks)
      ensures forall c | c != clk :: (c in clocks <==> c in old(clocks)) && (c in clocks ==> clocks[c] == old(clocks)[c])
    {
      if clk in clocks && period != clocks[clk] {
        return Fail(ClockConflict(clk, clocks[clk], period));
      }
      clocks := clocks[clk := period];
      accepted := accepted + [(clk, period)];
      r := Pass;
    }
  }
}
