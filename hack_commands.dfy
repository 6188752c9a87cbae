/**
  The commands of the Hack assembly language (projects/06/assembler/commands.go
  and the identical declarations at the head of parser.go): an A-command
  `@symbol`, a C-command `dest=comp;jump` and a label `(symbol)`.
*/
module HackCommands {

  datatype CommandType = ACommandType | CCommandType | LCommandType

  datatype Command =
    | ACommand(symbol: string)
    | CCommand(dest: string, comp: string, jump: string)
    | LCommand(symbol: string)
  {
    /** Type: each kind of command has its own tag. */
    function Type(): (t: CommandType)
      ensures t == ACommandType <==> ACommand?
      ensures t == CCommandType <==> CCommand?
      ensures t == LCommandType <==> LCommand?
    {
      match this
      case ACommand(_) => ACommandType
      case CCommand(_, _, _) => CCommandType
      case LCommand(_) => LCommandType
    }

    /**
      String: `@symbol`, `dest=comp;jump` (both separators always present,
      even around empty parts) and `(symbol)`.
    */
    function String(): string {
      match this
      case ACommand(s) => "@" + s
      case CCommand(d, c, j) => d + "=" + c + ";" + j
      case LCommand(s) => "(" + s + ")"
    }
  }
}
