/**
  The companion CLI command descriptor of a workload and the helpers that fill
  in its derived values once a command name is known.
 */
module Cli {
  import opened Names

  /** One generated CLI command: its name, help text, Go variable name and file name. */
  datatype CliCommand = CliCommand(name: string, description: string, varName: string, fileName: string)

  /** The zero value of a command: nothing configured. */
  const EmptyCommand := CliCommand("", "", "", "")

  predicate HasName(cmd: CliCommand) { cmd.name != "" }

  predicate HasDescription(cmd: CliCommand) { cmd.description != "" }

  /** A one-argument format string, split around its single `%s`. */
  datatype DescriptionTemplate = DescriptionTemplate(before: string, after: string)

  function Format(t: DescriptionTemplate, arg: string): string {
    t.before + arg + t.after
  }

  /**
    Fills the derived values of a named command: a missing description becomes
    the template applied to the lower-cased kind, and the variable and file
    names are derived from the command name. The name itself is never changed.
   */
  function SetCommonValues(cmd: CliCommand, kind: string, t: DescriptionTemplate): (r: CliCommand)
    ensures r.name == cmd.name
    ensures HasDescription(cmd) ==> r.description == cmd.description
    ensures !HasDescription(cmd) ==> r.description == Format(t, ToLower(kind))
    ensures r.varName == Capitalize(cmd.name) && r.fileName == cmd.name
  {
    var description := if HasDescription(cmd) then cmd.description else Format(t, ToLower(kind));
    CliCommand(cmd.name, description, Capitalize(cmd.name), cmd.name)
  }

  /**
    Fills the derived values of a subcommand whose name the caller has already
    defaulted: the same rules as for a root command.
   */
  function SetSubCommandValues(cmd: CliCommand, kind: string, t: DescriptionTemplate): (r: CliCommand)
    ensures r.name == cmd.name
    ensures HasDescription(cmd) ==> r.description == cmd.description
    ensures !HasDescription(cmd) ==> r.description == Format(t, ToLower(kind))
    ensures r.varName == Capitalize(cmd.name) && r.fileName == cmd.name
  {
    SetCommonValues(cmd, kind, t)
  }

  /** Filling the derived values a second time changes nothing. */
  lemma SetCommonValuesIdempotent(cmd: CliCommand, kind: string, t: DescriptionTemplate)
    ensures SetCommonValues(SetCommonValues(cmd, kind, t), kind, t) == SetCommonValues(cmd, kind, t)
  {
  }
}
