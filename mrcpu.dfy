/** The MrCPU integration shim: the signal bindings that instantiate the `mr_core` black
    box, the bridge from its pipelined Wishbone masters to LiteX's classic Wishbone buses,
    the compiler flags of each variant, the registration of the Verilog sources, and the
    reset-address / finalize lifecycle. */
module MrCpuCore {
  import opened Wrappers

  // ---------------------------------------------------------------------------------------
  // Variants, compiler flags and address space
  // ---------------------------------------------------------------------------------------

  const CpuVariants: seq<string> := ["standard"]

  /** The ISA and ABI flags of each variant: base RV32I, no M, A, C, F or D extension. */
  const GccFlagsTable: map<string, string> := map["standard" := "-march=rv32i      -mabi=ilp32 "]

  datatype CoreError =
    | UnknownVariant(variant: string)
    | ResetAddressUnset

  /** The `gcc_flags` property of a core of `variant`: save/restore calls disabled, then the
      variant's flags. A variant without flags raises a lookup error when the flags are read. */
  function GccFlags(variant: string): (flags: Result<string, CoreError>)
    ensures flags.Ok? <==> variant in CpuVariants
    ensures flags.Err? ==> flags.error == UnknownVariant(variant)
    ensures flags.Ok? ==> "-mno-save-restore " <= flags.value
  {
    if variant in GccFlagsTable then Ok("-mno-save-restore " + GccFlagsTable[variant])
    else Err(UnknownVariant(variant))
  }

  /** The flags of the one defined variant. */
  lemma StandardGccFlags()
    ensures GccFlags("standard") == Ok("-mno-save-restore -march=rv32i      -mabi=ilp32 ")
  {
    assert "standard" in GccFlagsTable && GccFlagsTable["standard"] == "-march=rv32i      -mabi=ilp32 ";
    assert "-mno-save-restore " + "-march=rv32i      -mabi=ilp32 " == "-mno-save-restore -march=rv32i      -mabi=ilp32 ";
  }

  /** The I/O regions, origin to length. */
  const IoRegions: map<int, int> := map[0x8000_0000 := 0x8000_0000]

  predicate InIoRegion(address: int)
  {
    exists origin | origin in IoRegions :: origin <= address < origin + IoRegions[origin]
  }

  /** Within the 32-bit address space, the I/O region is exactly the upper half. */
  lemma IoRegionIsUpperHalf(address: int)
    requires 0 <= address < 0x1_0000_0000
    ensures InIoRegion(address) <==> address >= 0x8000_0000
  {
    if address >= 0x8000_0000 {
      assert 0x8000_0000 in IoRegions;
    }
  }

  // ---------------------------------------------------------------------------------------
  // Signals and the expressions built from them
  // ---------------------------------------------------------------------------------------

  /** The two classic Wishbone master endpoints the shim exposes. */
  datatype Bus = IBus | DBus

  /** The fields of a classic Wishbone endpoint that the core uses. */
  datatype WbField = Adr | DatR | DatW | We | Sel | Stb | Ack | Error | Cyc

  /** The signals the port bindings refer to: the `sys` clock and reset, the shim's own soft
      `reset` signal, and the fields of the two buses. */
  datatype Sig = SysClock | SysReset | SoftReset | BusSignal(bus: Bus, field: WbField)

  /** A combinational expression over signals, as Migen builds one with `&`, `|` and `~`. */
  datatype Expr =
    | Ref(sig: Sig)
    | And(left: Expr, right: Expr)
    | Or(left: Expr, right: Expr)
    | Not(operand: Expr)

  /** The value of a one-bit expression in a cycle where signal `s` has value `env(s)`. */
  function Eval(e: Expr, env: Sig -> bool): bool
  {
    match e
    case Ref(s) => env(s)
    case And(l, r) => Eval(l, env) && Eval(r, env)
    case Or(l, r) => Eval(l, env) || Eval(r, env)
    case Not(x) => !Eval(x, env)
  }

  /** The signals an expression reads. */
  function Support(e: Expr): set<Sig>
  {
    match e
    case Ref(s) => {s}
    case And(l, r) => Support(l) + Support(r)
    case Or(l, r) => Support(l) + Support(r)
    case Not(x) => Support(x)
  }

  predicate OnBus(s: Sig, b: Bus)
  {
    s.BusSignal? && s.bus == b
  }

  /** An expression's value depends on the signals it reads and on no other. */
  lemma {:induction false} EvalDependsOnlyOnSupport(e: Expr, env1: Sig -> bool, env2: Sig -> bool)
    requires forall s | s in Support(e) :: env1(s) == env2(s)
    ensures Eval(e, env1) == Eval(e, env2)
  {
    match e
    case Ref(s) =>
    case And(l, r) =>
      EvalDependsOnlyOnSupport(l, env1, env2);
      EvalDependsOnlyOnSupport(r, env1, env2);
    case Or(l, r) =>
      EvalDependsOnlyOnSupport(l, env1, env2);
      EvalDependsOnlyOnSupport(r, env1, env2);
    case Not(x) =>
      EvalDependsOnlyOnSupport(x, env1, env2);
  }

  // ---------------------------------------------------------------------------------------
  // Pipelined-to-classic bridge
  // ---------------------------------------------------------------------------------------

  /** `GenMasterStall`: the stall input for a pipelined master on a classic bus. It reads only
      the bus's own cyc and ack, and stalls while a cycle is open and not yet acknowledged. */
  function GenMasterStall(bus: Bus): (stall: Expr)
    ensures Support(stall) == {BusSignal(bus, Cyc), BusSignal(bus, Ack)}
    ensures forall env: Sig -> bool {:trigger Eval(stall, env)} ::
      Eval(stall, env) == (env(BusSignal(bus, Cyc)) && !env(BusSignal(bus, Ack)))
  {
    var cyc, ack := Ref(BusSignal(bus, Cyc)), Ref(BusSignal(bus, Ack));
    assert Support(Not(ack)) == {BusSignal(bus, Ack)};
    assert forall env: Sig -> bool :: Eval(Not(ack), env) == !env(BusSignal(bus, Ack));
    And(cyc, Not(ack))
  }

  /** The stall line as a truth table over (cyc, ack). */
  function StallTruthTable(cyc: bool, ack: bool): bool
  {
    match (cyc, ack)
    case (false, false) => false
    case (false, true) => false
    case (true, false) => true
    case (true, true) => false
  }

  lemma MasterStallTruthTable(bus: Bus, env: Sig -> bool)
    ensures Eval(GenMasterStall(bus), env) == StallTruthTable(env(BusSignal(bus, Cyc)), env(BusSignal(bus, Ack)))
  {
  }

  // ---------------------------------------------------------------------------------------
  // Port bindings of the `mr_core` instance
  // ---------------------------------------------------------------------------------------

  /** The combined core reset: the `sys` reset or the soft reset. */
  const CoreReset: Expr := Or(Ref(SysReset), Ref(SoftReset))

  /** `cpu_params` as the constructor fills it: each keyword names a core port, prefixed with
      `i_` for an input and `o_` for an output, and is bound to the expression that drives
      it or that it drives. */
  function PortTable(): map<string, Expr>
  {
    map[
      "i_clk" := Ref(SysClock),
      "i_rst" := CoreReset,

      "o_wbm0_adr_o" := Ref(BusSignal(IBus, Adr)),
      "i_wbm0_dat_i" := Ref(BusSignal(IBus, DatR)),
      "o_wbm0_dat_o" := Ref(BusSignal(IBus, DatW)),
      "o_wbm0_we_o" := Ref(BusSignal(IBus, We)),
      "o_wbm0_sel_o" := Ref(BusSignal(IBus, Sel)),
      "o_wbm0_stb_o" := Ref(BusSignal(IBus, Stb)),
      "i_wbm0_ack_i" := Ref(BusSignal(IBus, Ack)),
      "i_wbm0_err_i" := Ref(BusSignal(IBus, Error)),
      "o_wbm0_cyc_o" := Ref(BusSignal(IBus, Cyc)),
      "i_wbm0_stall_i" := GenMasterStall(IBus),

      "o_wbm1_adr_o" := Ref(BusSignal(DBus, Adr)),
      "i_wbm1_dat_i" := Ref(BusSignal(DBus, DatR)),
      "o_wbm1_dat_o" := Ref(BusSignal(DBus, DatW)),
      "o_wbm1_we_o" := Ref(BusSignal(DBus, We)),
      "o_wbm1_sel_o" := Ref(BusSignal(DBus, Sel)),
      "o_wbm1_stb_o" := Ref(BusSignal(DBus, Stb)),
      "i_wbm1_ack_i" := Ref(BusSignal(DBus, Ack)),
      "i_wbm1_err_i" := Ref(BusSignal(DBus, Error)),
      "o_wbm1_cyc_o" := Ref(BusSignal(DBus, Cyc)),
      "i_wbm1_stall_i" := GenMasterStall(DBus)
    ]
  }

  /** The ports of one pipelined Wishbone master of the core: one per classic field, and the
      stall input that classic endpoints lack. */
  datatype MasterPort = Bound(field: WbField) | StallIn

  /** The ports the `mr_core` black box declares: clock, reset, and master 0 (instruction
      fetch, `wbm0`) and master 1 (data access, `wbm1`). */
  datatype CorePort = Clk | Rst | Wbm(bus: Bus, port: MasterPort)

  function MasterPorts(b: Bus): seq<CorePort>
  {
    [Wbm(b, Bound(Adr)), Wbm(b, Bound(DatR)), Wbm(b, Bound(DatW)), Wbm(b, Bound(We)), Wbm(b, Bound(Sel)),
     Wbm(b, Bound(Stb)), Wbm(b, Bound(Ack)), Wbm(b, Bound(Error)), Wbm(b, Bound(Cyc)), Wbm(b, StallIn)]
  }

  /** Every port of the core, each once. */
  const AllCorePorts: seq<CorePort> := [Clk, Rst] + MasterPorts(IBus) + MasterPorts(DBus)

  /** The keyword under which the core's Verilog port is bound: `i_` for a core input,
      `o_` for a core output, then the port's name in `mr_core`. */
  function Keyword(p: CorePort): string
  {
    match p
    case Clk => "i_clk"
    case Rst => "i_rst"
    case Wbm(IBus, Bound(Adr)) => "o_wbm0_adr_o"
    case Wbm(IBus, Bound(DatR)) => "i_wbm0_dat_i"
    case Wbm(IBus, Bound(DatW)) => "o_wbm0_dat_o"
    case Wbm(IBus, Bound(We)) => "o_wbm0_we_o"
    case Wbm(IBus, Bound(Sel)) => "o_wbm0_sel_o"
    case Wbm(IBus, Bound(Stb)) => "o_wbm0_stb_o"
    case Wbm(IBus, Bound(Ack)) => "i_wbm0_ack_i"
    case Wbm(IBus, Bound(Error)) => "i_wbm0_err_i"
    case Wbm(IBus, Bound(Cyc)) => "o_wbm0_cyc_o"
    case Wbm(IBus, StallIn) => "i_wbm0_stall_i"
    case Wbm(DBus, Bound(Adr)) => "o_wbm1_adr_o"
    case Wbm(DBus, Bound(DatR)) => "i_wbm1_dat_i"
    case Wbm(DBus, Bound(DatW)) => "o_wbm1_dat_o"
    case Wbm(DBus, Bound(We)) => "o_wbm1_we_o"
    case Wbm(DBus, Bound(Sel)) => "o_wbm1_sel_o"
    case Wbm(DBus, Bound(Stb)) => "o_wbm1_stb_o"
    case Wbm(DBus, Bound(Ack)) => "i_wbm1_ack_i"
    case Wbm(DBus, Bound(Error)) => "i_wbm1_err_i"
    case Wbm(DBus, Bound(Cyc)) => "o_wbm1_cyc_o"
    case Wbm(DBus, StallIn) => "i_wbm1_stall_i"
  }

  predicate IsCoreInput(p: CorePort)
  {
    match p
    case Wbm(_, Bound(f)) => f == DatR || f == Ack || f == Error
    case _ => true
  }

  /** What each core port should be bound to: the system clock, the combined reset, the
      same field of its own bus, or the stall synthesized from its own bus. */
  function Binding(p: CorePort): Expr
  {
    match p
    case Clk => Ref(SysClock)
    case Rst => CoreReset
    case Wbm(b, Bound(f)) => Ref(BusSignal(b, f))
    case Wbm(b, StallIn) => GenMasterStall(b)
  }

  /** The keywords name the direction of each port as the core declares it. */
  lemma KeywordDirection(p: CorePort)
    ensures |Keyword(p)| > 2 && Keyword(p)[..2] == (if IsCoreInput(p) then "i_" else "o_")
  {
  }

  /** No two ports of the core share a keyword. */
  lemma CoreKeywordsDistinct()
    ensures forall i, j | 0 <= i < j < |AllCorePorts| :: Keyword(AllCorePorts[i]) != Keyword(AllCorePorts[j])
  {
    InterfaceListIsKeywords();
    InterfaceListDistinct();
  }

  /** A bus port's binding reads only signals of that bus; the clock and reset read none. */
  lemma BindingReadsOwnBus(p: CorePort)
    ensures forall s | s in Support(Binding(p)) :: if p.Wbm? then OnBus(s, p.bus) else !s.BusSignal?
  {
  }

  lemma PortTableBindsClockAndReset()
    ensures Keyword(Clk) in PortTable() && PortTable()[Keyword(Clk)] == Binding(Clk)
    ensures Keyword(Rst) in PortTable() && PortTable()[Keyword(Rst)] == Binding(Rst)
  {
  }

  /** The address, data and write-enable outputs of master 0 drive the same fields of the instruction bus. */
  lemma InstructionBusRequestBound()
    ensures Keyword(Wbm(IBus, Bound(Adr))) in PortTable() && Keyword(Wbm(IBus, Bound(DatW))) in PortTable()
    ensures Keyword(Wbm(IBus, Bound(We))) in PortTable()
    ensures PortTable()[Keyword(Wbm(IBus, Bound(Adr)))] == Binding(Wbm(IBus, Bound(Adr)))
    ensures PortTable()[Keyword(Wbm(IBus, Bound(DatW)))] == Binding(Wbm(IBus, Bound(DatW)))
    ensures PortTable()[Keyword(Wbm(IBus, Bound(We)))] == Binding(Wbm(IBus, Bound(We)))
  {
  }

  /** The select, strobe and cycle outputs of master 0 drive the same fields of the instruction bus. */
  lemma InstructionBusControlBound()
    ensures Keyword(Wbm(IBus, Bound(Sel))) in PortTable() && Keyword(Wbm(IBus, Bound(Stb))) in PortTable()
    ensures Keyword(Wbm(IBus, Bound(Cyc))) in PortTable()
    ensures PortTable()[Keyword(Wbm(IBus, Bound(Sel)))] == Binding(Wbm(IBus, Bound(Sel)))
    ensures PortTable()[Keyword(Wbm(IBus, Bound(Stb)))] == Binding(Wbm(IBus, Bound(Stb)))
    ensures PortTable()[Keyword(Wbm(IBus, Bound(Cyc)))] == Binding(Wbm(IBus, Bound(Cyc)))
  {
  }

  /** The inputs of master 0 read the instruction bus, and its stall is the instruction bus's stall. */
  lemma InstructionBusInputsBound()
    ensures Keyword(Wbm(IBus, Bound(DatR))) in PortTable() && Keyword(Wbm(IBus, Bound(Ack))) in PortTable()
    ensures Keyword(Wbm(IBus, Bound(Error))) in PortTable() && Keyword(Wbm(IBus, StallIn)) in PortTable()
    ensures PortTable()[Keyword(Wbm(IBus, Bound(DatR)))] == Binding(Wbm(IBus, Bound(DatR)))
    ensures PortTable()[Keyword(Wbm(IBus, Bound(Ack)))] == Binding(Wbm(IBus, Bound(Ack)))
    ensures PortTable()[Keyword(Wbm(IBus, Bound(Error)))] == Binding(Wbm(IBus, Bound(Error)))
    ensures PortTable()[Keyword(Wbm(IBus, StallIn))] == Binding(Wbm(IBus, StallIn))
  {
  }

  lemma PortTableBindsInstructionBus(mp: MasterPort)
    ensures Keyword(Wbm(IBus, mp)) in PortTable() && PortTable()[Keyword(Wbm(IBus, mp))] == Binding(Wbm(IBus, mp))
  {
    InstructionBusRequestBound();
    InstructionBusControlBound();
    InstructionBusInputsBound();
    match mp
    case Bound(Adr) => case Bound(DatR) => case Bound(DatW) => case Bound(We) => case Bound(Sel) =>
    case Bound(Stb) => case Bound(Ack) => case Bound(Error) => case Bound(Cyc) => case StallIn =>
  }

  lemma PortTableBindsDataBus(mp: MasterPort)
    ensures Keyword(Wbm(DBus, mp)) in PortTable() && PortTable()[Keyword(Wbm(DBus, mp))] == Binding(Wbm(DBus, mp))
  {
    match mp
    case Bound(Adr) => case Bound(DatR) => case Bound(DatW) => case Bound(We) => case Bound(Sel) =>
    case Bound(Stb) => case Bound(Ack) => case Bound(Error) => case Bound(Cyc) => case StallIn =>
  }

  /** Each port of a master is bound to the same field of its own bus, or to its own bus's stall. */
  lemma PortTableBindsMaster(b: Bus, mp: MasterPort)
    ensures Keyword(Wbm(b, mp)) in PortTable() && PortTable()[Keyword(Wbm(b, mp))] == Binding(Wbm(b, mp))
  {
    if b == IBus {
      PortTableBindsInstructionBus(mp);
    } else {
      PortTableBindsDataBus(mp);
    }
  }

  /** Every port the core declares is bound, under its own keyword, to what it should be. */
  lemma PortTableBindsEveryCorePort()
    ensures forall p: CorePort :: Keyword(p) in PortTable() && PortTable()[Keyword(p)] == Binding(p)
  {
    forall p: CorePort
      ensures Keyword(p) in PortTable() && PortTable()[Keyword(p)] == Binding(p)
    {
      match p
      case Clk => PortTableBindsClockAndReset();
      case Rst => PortTableBindsClockAndReset();
      case Wbm(b, mp) => PortTableBindsMaster(b, mp);
    }
  }

  /** The keywords the constructor binds, in its order: one per port of the `mr_core` black
      box, each a direction prefix and then the port's name (`i_clk` binds input `clk`). */
  const MrCoreInterfaceList: seq<string> := ["i_clk", "i_rst",
     "o_wbm0_adr_o", "i_wbm0_dat_i", "o_wbm0_dat_o", "o_wbm0_we_o", "o_wbm0_sel_o",
     "o_wbm0_stb_o", "i_wbm0_ack_i", "i_wbm0_err_i", "o_wbm0_cyc_o", "i_wbm0_stall_i",
     "o_wbm1_adr_o", "i_wbm1_dat_i", "o_wbm1_dat_o", "o_wbm1_we_o", "o_wbm1_sel_o",
     "o_wbm1_stb_o", "i_wbm1_ack_i", "i_wbm1_err_i", "o_wbm1_cyc_o", "i_wbm1_stall_i"]

  /** The same keywords as a set. */
  function MrCoreInterface(): set<string>
  {
    set k | k in MrCoreInterfaceList
  }

  /** The `mr_core` port a keyword binds: the keyword without its two-letter direction
      prefix, as Migen's `Instance` splits it at the first `_`. */
  function PortName(keyword: string): string
  {
    if |keyword| >= 2 && keyword[1] == '_' then keyword[2..] else keyword
  }

  /** Dropping the direction prefixes leaves 22 distinct port names: each port of the black
      box is bound by exactly one keyword. */
  lemma PortNamesDistinct()
    ensures |MrCoreInterfaceList| == 22
    ensures forall i, j | 0 <= i < j < |MrCoreInterfaceList| ::
      PortName(MrCoreInterfaceList[i]) != PortName(MrCoreInterfaceList[j])
  {
  }

  /** No keyword is listed twice. */
  lemma InterfaceListDistinct()
    ensures forall i, j | 0 <= i < j < |MrCoreInterfaceList| ::
      MrCoreInterfaceList[i] != MrCoreInterfaceList[j]
  {
  }

  /** A list without repetitions has as many distinct elements as entries. */
  lemma {:induction false} DistinctCard(s: seq<string>)
    requires forall i, j | 0 <= i < j < |s| :: s[i] != s[j]
    ensures |set k | k in s| == |s|
  {
    if s != [] {
      DistinctCard(s[1..]);
      assert (set k | k in s) == {s[0]} + (set k | k in s[1..]);
      assert s[0] !in (set k | k in s[1..]);
    }
  }

  /** Twenty-two bindings: two for clock and reset and ten per master. */
  lemma PortTableSize()
    ensures |PortTable()| == 22
  {
    PortTableKeys();
    InterfaceListDistinct();
    DistinctCard(MrCoreInterfaceList);
  }

  /** The list of every core port is complete. */
  lemma AllCorePortsListed()
    ensures |AllCorePorts| == 22
    ensures forall p: CorePort :: p in AllCorePorts
  {
    forall p: CorePort
      ensures p in AllCorePorts
    {
      match p
      case Clk =>
      case Rst =>
      case Wbm(b, mp) =>
        var k := match mp
          case Bound(Adr) => 0 case Bound(DatR) => 1 case Bound(DatW) => 2 case Bound(We) => 3
          case Bound(Sel) => 4 case Bound(Stb) => 5 case Bound(Ack) => 6 case Bound(Error) => 7
          case Bound(Cyc) => 8 case StallIn => 9;
        assert MasterPorts(b)[k] == p;
        var offset := if b == IBus then 2 else 12;
        assert AllCorePorts[offset + k] == MasterPorts(b)[k];
    }
  }

  lemma InstructionBusKeywordsListed()
    ensures |AllCorePorts| == |MrCoreInterfaceList| == 22
    ensures forall i | 0 <= i < 12 :: Keyword(AllCorePorts[i]) == MrCoreInterfaceList[i]
  {
  }

  lemma DataBusKeywordsListed()
    ensures |AllCorePorts| == |MrCoreInterfaceList| == 22
    ensures forall i | 12 <= i < 22 :: Keyword(AllCorePorts[i]) == MrCoreInterfaceList[i]
  {
  }

  /** The listed keywords are the keywords of the core's ports, in the same order. */
  lemma InterfaceListIsKeywords()
    ensures |AllCorePorts| == |MrCoreInterfaceList|
    ensures forall i | 0 <= i < |AllCorePorts| :: Keyword(AllCorePorts[i]) == MrCoreInterfaceList[i]
  {
    InstructionBusKeywordsListed();
    DataBusKeywordsListed();
  }

  /** The table binds exactly the listed keywords, no more and no fewer. */
  lemma PortTableKeys()
    ensures PortTable().Keys == MrCoreInterface()
  {
  }

  /** Every listed keyword is the keyword of a port of the core. */
  lemma InterfaceNamesArePorts()
    ensures forall k | k in MrCoreInterface() :: exists p: CorePort :: Keyword(p) == k
  {
    InterfaceListIsKeywords();
    forall k | k in MrCoreInterface()
      ensures exists p: CorePort :: Keyword(p) == k
    {
      var i :| 0 <= i < |MrCoreInterfaceList| && MrCoreInterfaceList[i] == k;
      assert Keyword(AllCorePorts[i]) == k;
    }
  }

  /** Every keyword of the table is the keyword of a port the core declares. */
  lemma PortTableHasOnlyCorePorts()
    ensures forall k | k in PortTable() :: exists p: CorePort :: Keyword(p) == k
  {
    PortTableKeys();
    InterfaceNamesArePorts();
  }

  /** The core is held in reset while the system reset or the CPU's own reset is high. */
  lemma CoreResetCombinesBoth(env: Sig -> bool)
    ensures Eval(PortTable()["i_rst"], env) == (env(SysReset) || env(SoftReset))
  {
  }

  /** The stall of master `b` does not depend on anything on the other bus, nor on clock or
      reset: two environments that agree on bus `b` give it the same value. */
  lemma StallIndependentOfOtherBus(b: Bus, env1: Sig -> bool, env2: Sig -> bool)
    requires forall f: WbField :: env1(BusSignal(b, f)) == env2(BusSignal(b, f))
    ensures Eval(PortTable()[Keyword(Wbm(b, StallIn))], env1)
         == Eval(PortTable()[Keyword(Wbm(b, StallIn))], env2)
  {
    PortTableBindsMaster(b, StallIn);
    var stall := GenMasterStall(b);
    forall s | s in Support(stall)
      ensures env1(s) == env2(s)
    {
      assert s == BusSignal(b, Cyc) || s == BusSignal(b, Ack);
    }
    EvalDependsOnlyOnSupport(stall, env1, env2);
  }

  // ---------------------------------------------------------------------------------------------
  // Source registration
  // ---------------------------------------------------------------------------------------------

  /** What the core asks the platform to record about its Verilog sources. */
  datatype Registration = IncludePath(path: string) | SourceDir(path: string)

  /** The platform, seen only through the registrations it receives. */
  class Platform {
    var registered: seq<Registration>

    constructor ()
      ensures registered == []
    {
      registered := [];
    }

    method AddVerilogIncludePath(path: string)
      modifies this
      ensures registered == old(registered) + [IncludePath(path)]
    {
      registered := registered + [IncludePath(path)];
    }

    method AddSourceDir(path: string)
      modifies this
      ensures registered == old(registered) + [SourceDir(path)]
    {
      registered := registered + [SourceDir(path)];
    }
  }

  /** POSIX path joining of two components: an absolute `part` replaces `dir`, and a separator
      is inserted only when `dir` is non-empty and does not already end in one. */
  function PathJoin(dir: string, part: string): (path: string)
    ensures |part| > 0 && part[0] == '/' ==> path == part
    ensures !(|part| > 0 && part[0] == '/') ==>
      (dir <= path && |part| <= |path| && path[|path| - |part|..] == part)
    ensures !(|part| > 0 && part[0] == '/') ==>
      (|path| == |dir| + |part| || |path| == |dir| + 1 + |part|) &&
      ((|path| == |dir| + |part|) <==> (dir == [] || dir[|dir| - 1] == '/'))
  {
    if |part| > 0 && part[0] == '/' then part
    else if dir == [] || dir[|dir| - 1] == '/' then dir + part
    else dir + "/" + part
  }

  /** Joining a relative name to a directory puts exactly one separator between them: the one
      the directory already ends in, or an inserted one. */
  lemma PathJoinRelative(dir: string, part: string)
    requires !(|part| > 0 && part[0] == '/')
    ensures var path := PathJoin(dir, part);
      |path| > |dir| + |part| ==> path[|dir|] == '/'
    ensures var path := PathJoin(dir, part);
      dir != [] ==> path[|path| - |part| - 1] == '/'
  {
  }

  /** The directory the Verilog sources come from: the overlay named in the environment when it
      is set (even to the empty string), and otherwise the installed data package. */
  function SourceDirectory(env: map<string, string>, packaged: string): (vdir: string)
    ensures "MRCPU_SOURCE_OVERLAY" in env ==> vdir == env["MRCPU_SOURCE_OVERLAY"]
    ensures "MRCPU_SOURCE_OVERLAY" !in env ==> vdir == packaged
  {
    if "MRCPU_SOURCE_OVERLAY" in env then env["MRCPU_SOURCE_OVERLAY"] else packaged
  }

  /** The three registrations the core makes for source directory `vdir`, in call order. */
  function SourceRegistrations(vdir: string): seq<Registration>
  {
    [IncludePath(PathJoin(vdir, "rtl")), IncludePath(vdir), SourceDir(PathJoin(vdir, "rtl"))]
  }

  /** Both include paths and the single source directory lie under `vdir`, and the source
      directory is the first include path. */
  lemma SourceRegistrationsUnderDirectory(vdir: string)
    ensures var regs := SourceRegistrations(vdir);
      |regs| == 3 && regs[0].IncludePath? && regs[1].IncludePath? && regs[2].SourceDir?
      && regs[0].path == regs[2].path
      && forall i | 0 <= i < 3 :: vdir <= regs[i].path
    ensures var regs := SourceRegistrations(vdir);
      regs[0].path[|regs[0].path| - 3..] == "rtl"
  {
    var rtl := PathJoin(vdir, "rtl");
    assert "rtl"[0] == 'r';
  }

  // ---------------------------------------------------------------------------------------------
  // The CPU wrapper
  // ---------------------------------------------------------------------------------------------

  /** An instantiated black box: its module name and its keyword bindings. */
  datatype Instance = Instance(name: string, ports: map<string, Expr>)

  class MrCpu {
    const variant: string
    const periphBuses: seq<Bus>
    const memoryBuses: seq<Bus>
    var cpuParams: map<string, Expr>
    var resetAddress: Option<int>
    var specials: seq<Instance>

    /** Builds the buses and the port table, then registers the sources. The variant is not
        checked here; an unknown one is refused only when the compiler flags are asked for. */
    constructor (platform: Platform, variant: string, env: map<string, string>, packaged: string)
      modifies platform
      ensures this.variant == variant
      ensures periphBuses == [IBus, DBus] && memoryBuses == []
      ensures cpuParams == PortTable() && resetAddress == None && specials == []
      ensures platform.registered
           == old(platform.registered) + SourceRegistrations(SourceDirectory(env, packaged))
    {
      this.variant := variant;
      periphBuses := [IBus, DBus];
      memoryBuses := [];
      cpuParams := PortTable();
      resetAddress := None;
      specials := [];
      new;
      AddSources(platform, env, packaged);
    }

    /** Registers the include paths and the source directory of the core with the platform. */
    static method AddSources(platform: Platform, env: map<string, string>, packaged: string)
      modifies platform
      ensures platform.registered
           == old(platform.registered) + SourceRegistrations(SourceDirectory(env, packaged))
    {
      var vdir := SourceDirectory(env, packaged);
      platform.AddVerilogIncludePath(PathJoin(vdir, "rtl"));
      platform.AddVerilogIncludePath(vdir);
      platform.AddSourceDir(PathJoin(vdir, "rtl"));
    }

    /** Records the reset address; the port table is left as it is. Calling it again replaces
        the address. */
    method SetResetAddress(address: int)
      modifies this`resetAddress
      ensures resetAddress == Some(address)
    {
      resetAddress := Some(address);
    }

    /** Instantiates the black box with the port table, provided a reset address was set. */
    method DoFinalize() returns (r: Outcome<CoreError>)
      modifies this`specials
      ensures r.Fail? <==> resetAddress.None?
      ensures r.Fail? ==> r.error == ResetAddressUnset && specials == old(specials)
      ensures r.Pass? ==> specials == old(specials) + [Instance("mr_core", cpuParams)]
    {
      if resetAddress.None? {
        return Fail(ResetAddressUnset);
      }
      specials := specials + [Instance("mr_core", cpuParams)];
      return Pass;
    }
  }

  /** The life cycle of the wrapper: finalizing before a reset address is set fails and adds
      nothing; after it is set, finalizing adds one `mr_core` instance bound by the port table. */
  method Elaborate(platform: Platform, env: map<string, string>, packaged: string, address: int)
    returns (early: Outcome<CoreError>, late: Outcome<CoreError>, cpu: MrCpu)
    modifies platform
    ensures early == Fail(ResetAddressUnset) && late == Pass
    ensures cpu.resetAddress == Some(address)
    ensures cpu.specials == [Instance("mr_core", PortTable())]
  {
    cpu := new MrCpu(platform, "standard", env, packaged);
    early := cpu.DoFinalize();
    assert cpu.specials == [];
    cpu.SetResetAddress(address);
    late := cpu.DoFinalize();
  }
}
