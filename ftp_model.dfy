/**
 * The FTP command and command-result records an FtpMessage carries (the
 * com.consol.citrus.ftp.model types), as values. Each command kind keeps the
 * fields the factories of FtpMessage fill in.
 */
module FtpModel {
  import opened Wrappers
  import opened JavaInt

  /** Service commands of section 4.1.3 of RFC 959, as `FTPCmd.X.getCommand()` names them. */
  const RETR: string := "RETR"
  const STOR: string := "STOR"
  const DELE: string := "DELE"
  const LIST: string := "LIST"

  /** The pseudo-command the message uses for opening a session. */
  const OPEN_COMMAND: string := "OPEN"

  /** Reply code 200, "Command okay", of section 4.2.2 of RFC 959 (`FTPReply.COMMAND_OK`). */
  const COMMAND_OK: int32 := 200

  /** The ftplet transfer data type; a command stores its `name()`. */
  datatype DataType = ASCII | BINARY {
    function Name(): string {
      match this
      case ASCII => "ASCII"
      case BINARY => "BINARY"
    }
  }

  /** The `File` element of a put or get command: a path and a data-type name. */
  datatype TransferFile = TransferFile(path: string, fileType: string)

  /** Which concrete command class a command is, with that class's own fields. */
  datatype CommandKind =
    | PlainCommand
    | ConnectCommand(sessionId: string)
    | PutCommand(file: TransferFile, target: string)
    | GetCommand(file: TransferFile, target: string)
    | DeleteCommand(target: string)
    | ListCommand(target: string)

  /** A command: its kind plus the signal and arguments every command carries (both nullable). */
  datatype FtpCommand = FtpCommand(kind: CommandKind, signal: Option<string>, arguments: Option<string>)

  /** One entry of a list result's `Files`. */
  datatype ListedFile = ListedFile(path: string)

  /** The `File` element of a get result: a path and the file's content. */
  datatype RetrievedFile = RetrievedFile(path: string, data: string)

  /** Which concrete result class a command result is, with that class's own fields. */
  datatype ResultKind =
    | PlainResult
    | ListCommandResult(files: seq<ListedFile>)
    | GetCommandResult(file: RetrievedFile)

  /** A command result; the reply code is kept as text, as the result class stores it. */
  datatype FtpCommandResult = FtpCommandResult(
    kind: ResultKind,
    replyCode: Option<string>,
    replyString: Option<string>,
    success: bool)

  /**
   * The FTP command header `setCommandHeader` chooses: a fixed name for each typed
   * command class, and the command's own signal for any other command.
   */
  function CommandHeader(cmd: FtpCommand): (r: Option<string>)
    ensures cmd.kind.PlainCommand? ==> r == cmd.signal
    ensures !cmd.kind.PlainCommand? ==> r.Some? && r.value in {OPEN_COMMAND, RETR, STOR, LIST, DELE}
    ensures r == Some(OPEN_COMMAND) && !cmd.kind.PlainCommand? <==> cmd.kind.ConnectCommand?
    ensures r == Some(RETR) && !cmd.kind.PlainCommand? <==> cmd.kind.GetCommand?
    ensures r == Some(STOR) && !cmd.kind.PlainCommand? <==> cmd.kind.PutCommand?
    ensures r == Some(LIST) && !cmd.kind.PlainCommand? <==> cmd.kind.ListCommand?
    ensures r == Some(DELE) && !cmd.kind.PlainCommand? <==> cmd.kind.DeleteCommand?
  {
    match cmd.kind
    case ConnectCommand(_) => Some(OPEN_COMMAND)
    case GetCommand(_, _) => Some(RETR)
    case PutCommand(_, _) => Some(STOR)
    case ListCommand(_) => Some(LIST)
    case DeleteCommand(_) => Some(DELE)
    case PlainCommand => cmd.signal
  }

}
