# OSFPGA back end and MrCPU shim, modelled in Dafny

This project models two small pieces of LiteX, the Python SoC builder.

**The OSFPGA toolchain back end** (`OsFpga`, in `osfpga.dfy`) covers three things:

- the `create_clock` lines of the timing-constraint file (`_build_sdc`), one per constrained
  clock, in ascending order of the clocks' Migen ids (`duid`);
- the command list of `build.tcl` (`_build_tcl`): create the design, set the device macro, add
  the include paths and sources, name the top module and the constraint file, run the seven
  flow steps;
- the period table of the `OSFPGAToolchain` object, which refuses to constrain a clock again
  with a different period.

**The MrCPU integration shim** (`MrCpuCore`, in `mrcpu.dfy`) covers:

- the stall signal that bridges the core's pipelined Wishbone masters to LiteX's classic
  Wishbone buses: stall while a cycle is open and not yet acknowledged;
- the keyword table (`cpu_params`) that binds each port of the `mr_core` black box to the
  system clock, the combined reset, a field of the instruction or data bus, or a synthesized
  stall;
- the compiler flags of the one variant;
- the registration of the Verilog sources with the platform;
- the life cycle: set the reset address, then finalize, which instantiates the black box.

`_build_sdc` and `_build_tcl` are imperative. They become methods with loops, proved equal to
the specification functions `SdcLines` and `TclScript`, about which the layout lemmas are proved.

The toolchain, the platform and the CPU wrapper are classes whose methods update their fields:

- `OsFpga.Toolchain`: the period table;
- `MrCpuCore.Platform`: the registrations it has received;
- `MrCpuCore.MrCpu`: the port table, the reset address and the emitted instances.

The stall bridge and the flags are pure functions. Signals are tags, and a Migen expression is a
small datatype evaluated under an assignment of values to signals.

Representation choices:

- Periods are whole picoseconds.
- `str(period)` is modelled as the whole nanoseconds, a point, and the shortest one to three
  fractional digits. That is how Python prints a float that `floor(p*1e3)/1e3` produced, as long
  as the period is below about 2^43 ns (8.8·10^12 ns). Above that the double no longer holds
  every picosecond, and Python's digits can differ from the model's.
- A clock is given by its id; the name the Verilog namespace gives it is a parameter
  `nameOf: Duid -> string`.
- `os.environ` and the installed data package are parameters: `env: map<string, string>` and
  `packaged: string`.

Behaviour of the code worth knowing:

- The constructor does not check the variant; only reading `gcc_flags` fails for an unknown
  one. See `GccFlags`.
- `add_sources` registers `rtl`, then the directory itself, as include paths, and only `rtl` as
  a source directory. See `SourceRegistrations`.
- `set_reset_address` may be called again; each call replaces the address.
- `_build_tcl` emits 12 fixed commands, plus one per include path and one per source file.

## Model

| member | source | states |
|---|---|---|
| OsFpga.Decimal | litex/build/osfpga/osfpga.py:23 | renders a whole number of nanoseconds as non-empty decimal digits, without leading zeros, denoting that number |
| OsFpga.Fraction | litex/build/osfpga/osfpga.py:23 | renders sub-nanosecond thousandths as one to three digits that denote exactly those thousandths, with no trailing zero unless the fraction is zero, as Python's float printing does |
| OsFpga.FormatPeriod | litex/build/osfpga/osfpga.py:23 | `str(period)` for a period rounded to the picosecond: the whole nanoseconds, a point, and the fraction digits; its properties are the two lemmas below |
| OsFpga.FormatPeriodShape | litex/build/osfpga/osfpga.py:23 | the rendering is a non-empty digit string without a leading zero, a point, then one to three digits |
| OsFpga.FormatPeriodRoundTrip | litex/build/osfpga/osfpga.py:23 | the model's rendering of a period reads back as the same whole number of picoseconds, so the model prints the period to the picosecond without loss |
| OsFpga.ClockLine | litex/build/osfpga/osfpga.py:23 | the `create_clock` command for one clock; its property is `ClockLineFields` |
| OsFpga.ClockLineFields | litex/build/osfpga/osfpga.py:23 | the line starts with `create_clock -name <name> -period ` and ends with ` [get_ports {<name>}]`, and the text between reads back as the clock's period |
| OsFpga.AscendingDuidsComplete | litex/build/osfpga/osfpga.py:22 | the sorted clock order lists every constrained clock exactly once |
| OsFpga.AscendingDuidsIncreasing | litex/build/osfpga/osfpga.py:22 | the clock order is strictly ascending in the clocks' ids |
| OsFpga.ClockLinesAt | litex/build/osfpga/osfpga.py:22-23 | one `create_clock` line per clock of the order, at the same position, carrying that clock's name and period |
| OsFpga.SdcLines | litex/build/osfpga/osfpga.py:20-23 | the .sdc lines of a clock table: one line per constrained clock |
| OsFpga.SdcLinesLayout | litex/build/osfpga/osfpga.py:21-23 | the .sdc lines number as many as the constrained clocks; each clock has exactly one line, with its own name and period; the lines follow strictly ascending clock ids |
| OsFpga.BuildSdc | litex/build/osfpga/osfpga.py:20-23 | the loop that visits clocks in ascending id order and appends a line per clock produces exactly the .sdc lines |
| OsFpga.IncludeCommandsAt | litex/build/osfpga/osfpga.py:42-43 | one `add_include_path p` per include path, in input order |
| OsFpga.DesignFileCommandsAt | litex/build/osfpga/osfpga.py:46-47 | one `add_design_file f` per source tuple, in input order, using the path only and ignoring language and library |
| OsFpga.TclScript | litex/build/osfpga/osfpga.py:29-62 | the build script for a device macro; it has 12 + (number of include paths) + (number of sources) commands |
| OsFpga.TclScriptOpening | litex/build/osfpga/osfpga.py:33-41 | the script begins with `create_design <build_name>`, then `set_macro <macro>`, then `add_include_path ./` |
| OsFpga.TclScriptIncludePaths | litex/build/osfpga/osfpga.py:41-43 | right after `./`, each given include path appears once, in order |
| OsFpga.TclScriptDesignFiles | litex/build/osfpga/osfpga.py:46-47 | right after the include paths, each source file appears once by path, in order |
| OsFpga.TclScriptClosing | litex/build/osfpga/osfpga.py:50-62 | the last nine commands are `set_top_module <build_name>`, `add_constraint_file <build_name>.sdc`, then synth, packing, place, route, sta, power and bitstream |
| OsFpga.BuildTcl | litex/build/osfpga/osfpga.py:29-62 | succeeds exactly when the device is `"test"`; otherwise it fails with an unknown-device error naming the device; on success it returns the script with macro `"P1=10  P2=20"` |
| OsFpga.Toolchain.constructor | litex/build/osfpga/osfpga.py:73-75 | records the toolchain name and starts with an empty clock table |
| OsFpga.Toolchain.AddPeriodConstraint | litex/build/osfpga/osfpga.py:139-146 | fails exactly when the clock already has a different period; on failure it reports both periods and leaves the table unchanged; otherwise it inserts or overwrites that one clock; re-adding the same period changes nothing; other clocks are never touched; every accepted constraint stays in force |
| MrCpuCore.GccFlags | litex/soc/cores/cpu/mrcpu/core.py:55-59 | the flags exist exactly for the listed variants; an unknown variant is a lookup error naming it; the flags always begin with `-mno-save-restore ` |
| MrCpuCore.StandardGccFlags | litex/soc/cores/cpu/mrcpu/core.py:23-32 | the `standard` variant's flags are `-mno-save-restore -march=rv32i      -mabi=ilp32 ` |
| MrCpuCore.IoRegionIsUpperHalf | litex/soc/cores/cpu/mrcpu/core.py:52 | within the 32-bit address space, an address is in the I/O region exactly when it is in the upper half |
| MrCpuCore.EvalDependsOnlyOnSupport | litex/soc/cores/cpu/mrcpu/core.py:39 | a bound expression's value depends only on the signals it reads |
| MrCpuCore.GenMasterStall | litex/soc/cores/cpu/mrcpu/core.py:36-39 | the stall reads exactly its bus's cyc and ack, and is high exactly when cyc is high and ack is low |
| MrCpuCore.MasterStallTruthTable | litex/soc/cores/cpu/mrcpu/core.py:39 | the stall follows the truth table (0,0)→0, (0,1)→0, (1,0)→1, (1,1)→0 over (cyc, ack) |
| MrCpuCore.PortTable | litex/soc/cores/cpu/mrcpu/core.py:77-104 | the `cpu_params` dict as the constructor fills it; its properties are the port-table lemmas below |
| MrCpuCore.KeywordDirection | litex/soc/cores/cpu/mrcpu/core.py:77-104 | each keyword starts with `i_` for a core input (clock, reset, read data, ack, err, stall) and `o_` for a core output |
| MrCpuCore.AllCorePortsListed | litex/soc/cores/cpu/mrcpu/core.py:77-104 | the port list holds 22 entries and every port of the black box is on it |
| MrCpuCore.InterfaceListIsKeywords | litex/soc/cores/cpu/mrcpu/core.py:77-104 | the keywords the constructor binds (one per `mr_core` port: a direction prefix, then the port's name) are the keywords of the core's ports, in the constructor's order |
| MrCpuCore.InterfaceListDistinct | litex/soc/cores/cpu/mrcpu/core.py:77-104 | no keyword the constructor binds is listed twice |
| MrCpuCore.PortNamesDistinct | litex/soc/cores/cpu/mrcpu/core.py:77-104 | with the direction prefix dropped, as Migen's `Instance` reads a keyword, the 22 keywords name 22 distinct `mr_core` ports: each port is bound once |
| MrCpuCore.CoreKeywordsDistinct | litex/soc/cores/cpu/mrcpu/core.py:77-104 | no two ports of the core are bound under the same keyword |
| MrCpuCore.PortTableKeys | litex/soc/cores/cpu/mrcpu/core.py:77-104 | the table binds exactly the constructor's keywords: none missing and none extra |
| MrCpuCore.PortTableSize | litex/soc/cores/cpu/mrcpu/core.py:77-104 | the table holds exactly 22 bindings |
| MrCpuCore.InterfaceNamesArePorts | litex/soc/cores/cpu/mrcpu/core.py:77-104 | every keyword the constructor binds is the keyword of one of the core's ports |
| MrCpuCore.PortTableHasOnlyCorePorts | litex/soc/cores/cpu/mrcpu/core.py:77-104 | every keyword in the table names a port of the core |
| MrCpuCore.PortTableBindsClockAndReset | litex/soc/cores/cpu/mrcpu/core.py:79-80 | `i_clk` is bound to the sys clock, and `i_rst` to the sys reset OR the CPU's own reset |
| MrCpuCore.PortTableBindsMaster | litex/soc/cores/cpu/mrcpu/core.py:83-103 | each `wbm0_*` port is bound to the same field of ibus and each `wbm1_*` port to the same field of dbus; the stall inputs are bound to the stall of their own bus |
| MrCpuCore.PortTableBindsEveryCorePort | litex/soc/cores/cpu/mrcpu/core.py:77-104 | every port of the core is present under its own keyword, bound to its intended signal |
| MrCpuCore.BindingReadsOwnBus | litex/soc/cores/cpu/mrcpu/core.py:83-103 | a master port's binding reads only its own bus's signals; the clock and reset read none |
| MrCpuCore.CoreResetCombinesBoth | litex/soc/cores/cpu/mrcpu/core.py:80 | the core is in reset exactly when the sys reset or the CPU's own reset is high |
| MrCpuCore.StallIndependentOfOtherBus | litex/soc/cores/cpu/mrcpu/core.py:92-103 | a master's stall input has the same value whenever its own bus's signals agree, whatever the other bus does |
| MrCpuCore.Platform.AddVerilogIncludePath | litex/soc/cores/cpu/mrcpu/core.py:123-124 | the platform records one include-path registration at the end of its log |
| MrCpuCore.Platform.AddSourceDir | litex/soc/cores/cpu/mrcpu/core.py:125 | the platform records one source-directory registration at the end of its log |
| MrCpuCore.PathJoin | litex/soc/cores/cpu/mrcpu/core.py:123 | an absolute part replaces the directory; otherwise the result starts with the directory, ends with the part, and is one character longer than both together exactly when the directory is non-empty and does not end in `/` |
| MrCpuCore.PathJoinRelative | litex/soc/cores/cpu/mrcpu/core.py:123 | the one inserted character is a `/`, and a non-empty directory is always followed by a `/` before the part |
| MrCpuCore.SourceDirectory | litex/soc/cores/cpu/mrcpu/core.py:118-122 | the override variable is used whenever it is present, even if empty; otherwise the packaged data location is used |
| MrCpuCore.SourceRegistrations | litex/soc/cores/cpu/mrcpu/core.py:123-125 | the three registrations `add_sources` makes for a source directory, in call order; its property is the next lemma |
| MrCpuCore.SourceRegistrationsUnderDirectory | litex/soc/cores/cpu/mrcpu/core.py:123-125 | the registrations are two include paths then one source directory; all lie under the source directory; the source directory is the first include path, which ends in `rtl` |
| MrCpuCore.MrCpu.AddSources | litex/soc/cores/cpu/mrcpu/core.py:116-125 | appends, in order, include path `<vdir>/rtl`, include path `<vdir>` and source directory `<vdir>/rtl` to the platform's registrations, `vdir` chosen as above |
| MrCpuCore.MrCpu.constructor | litex/soc/cores/cpu/mrcpu/core.py:62-107 | keeps the variant unchecked; sets the peripheral buses to exactly [ibus, dbus] and the memory buses to empty; fills the parameters with the port table; starts with no reset address and no instance; registers the sources |
| MrCpuCore.MrCpu.SetResetAddress | litex/soc/cores/cpu/mrcpu/core.py:109-114 | records the address, replacing any earlier one; changes neither the parameters nor anything else |
| MrCpuCore.MrCpu.DoFinalize | litex/soc/cores/cpu/mrcpu/core.py:127-129 | fails exactly when no reset address was set, adding nothing; otherwise it appends one `mr_core` instance bound by the current parameters |
| MrCpuCore.Elaborate | litex/soc/cores/cpu/mrcpu/core.py:109-129 | on a fresh core, finalizing fails with the unset-reset-address error; after setting an address, finalizing succeeds and the core holds exactly one `mr_core` instance bound by the port table |

## Left out

- `OSFPGAToolchain.build` is left out: directory changes, the `cp` of .init files, Verilog
  generation, the search for the executable and the toolchain run. It is operating-system and
  process plumbing.
- The `open(...).write` of `<build_name>.sdc` and `build.tcl` and the `"\n".join` are left out; the
  generators return the list of lines.
- `Toolchain.AddPeriodConstraint` takes a period already rounded down to the picosecond. The
  floating-point `floor(period*1e3)/1e3` is not modelled, and neither are negative or
  non-finite periods.
- `FormatPeriod` agrees with Python's float printing only for periods below about 2^43 ns
  (8.8·10^12 ns). Above that bound, the double `floor(p*1e3)/1e3` cannot represent every
  picosecond, and the printed digits may differ; the exponent form Python uses from 10^16
  upward is not modelled either. `FormatPeriodRoundTrip` is a fact about the model's rendering,
  not about Python's above that bound.
- `Toolchain.AddPeriodConstraint`: the text of the `ValueError` message, which formats both
  periods to two decimals, is not modelled; the error carries the clock and both periods.
- Adding the `keep` attribute to the clock signal is not modelled.
- The names the Verilog namespace gives signals (`vns.get_name`) are a parameter; the
  namespace itself is not part of this model.
- `os.environ` and `get_data_mod(...).data_location` are parameters of `AddSources`;
  whether the directory exists is not checked, as the code does not check it either.
- `MrCpuCore.Platform` records registrations in call order. The real platform stores include
  paths as absolute paths in a set and walks source directories; that code is not part of this
  model.
- Migen internals are modelled as value-level expressions over tags: `Signal`, `ClockSignal`,
  `ResetSignal`, `wishbone.Interface`, `Instance` and the elaboration of `specials`. Bus widths
  and multi-bit fields are not modelled; each field is one tag.
- `MrCpu.DoFinalize`: Python's `assert` is modelled as an error result. Running Python with `-O`,
  which removes the assert, is not modelled.
- The class attributes of `MrCpu` (name, family, data width, endianness, GCC triple and so on)
  are constants with no behaviour and are not modelled, apart from `io_regions`.
- The `mr_core` Verilog CPU itself is a black box and is not modelled.
- `PathJoin`: only POSIX `os.path.join` is modelled. On Windows the code would use `ntpath.join`,
  with backslash separators and drive letters, which the model does not capture.
- `MrCpu.constructor`: Python's default `variant="standard"` is not modelled; callers pass the
  variant explicitly.
