/**
 * The FTP message: a header map plus the command or command result it was built
 * from. Static factories build messages, `Arguments` updates one in place, and the
 * query functions read the signal, arguments, reply code and reply string back,
 * from the headers first and from the command result where the headers say nothing.
 */
module FtpMessages {
  import opened Wrappers
  import opened JavaInt
  import opened JavaText
  import opened FtpModel

  /** Header names, as the FTP message header constants define them; only their distinctness matters. */
  const FTP_COMMAND: string := "citrus_ftp_command"
  const FTP_ARGS: string := "citrus_ftp_arguments"
  const FTP_REPLY_CODE: string := "citrus_ftp_reply_code"
  const FTP_REPLY_STRING: string := "citrus_ftp_reply_string"

  /** A header value: the factories store strings; a caller may also store an `Integer`. */
  datatype HeaderValue = Text(text: string) | Number(number: int32) {
    /** `Object.toString()` of the value; an `Integer` prints as a decimal that parses back to it. */
    function ToString(): (s: string)
      ensures Text? ==> s == text
      ensures Number? ==> ParseInt(s) == Some(number)
    {
      match this
      case Text(t) => t
      case Number(n) => ParseValueOf(n); ValueOf(n)
    }
  }

  /** What `getReplyCode()` answers: null, an `Integer`, or a NumberFormatException. */
  datatype ReplyCode = NullCode | Code(value: int32) | NumberFormatError

  /** `Integer.valueOf(s)` as a reply code; only a string with text can give a number. */
  function Parsed(s: string): (r: ReplyCode)
    ensures r.Code? ==> HasText(s) && ParseInt(s) == Some(r.value)
    ensures !r.Code? ==> r == NumberFormatError && ParseInt(s) == None
  {
    match ParseInt(s)
    case Some(n) => assert !IsWhitespace(s[|s| - 1]); Code(n)
    case None => NumberFormatError
  }

  /** A nullable string as a nullable header value. */
  function TextOf(s: Option<string>): Option<HeaderValue> {
    match s
    case None => None
    case Some(t) => Some(Text(t))
  }

  /** `headers.put(name, value)`, where a null value reads back as an absent header. */
  function Assign(headers: map<string, HeaderValue>, name: string, value: Option<HeaderValue>): (r: map<string, HeaderValue>)
    ensures name in r <==> value.Some?
    ensures value.Some? ==> r[name] == value.value
    ensures forall k | k in headers && k != name :: k in r && r[k] == headers[k]
    ensures forall k | k in r && k != name :: k in headers
  {
    if value.Some? then headers[name := value.value] else headers - {name}
  }

  /** The headers `result(commandResult)` leaves: the reply code and the reply string, each absent when null. */
  function ReplyHeaders(replyCode: Option<string>, replyString: Option<string>): map<string, HeaderValue> {
    Assign(Assign(map[], FTP_REPLY_CODE, TextOf(replyCode)), FTP_REPLY_STRING, TextOf(replyString))
  }

  class FtpMessage {
    var headers: map<string, HeaderValue>
    var command: Option<FtpCommand>
    var commandResult: Option<FtpCommandResult>

    /** `getHeader(name)`: the value, or null when the header is absent. */
    function Header(name: string): Option<HeaderValue>
      reads this
    {
      if name in headers then Some(headers[name]) else None
    }

    /** `Optional.ofNullable(getHeader(name)).map(Object::toString).orElse(null)`. */
    function HeaderString(name: string): (r: Option<string>)
      reads this
      ensures r.None? <==> name !in headers
      ensures name in headers && headers[name].Text? ==> r == Some(headers[name].text)
      ensures name in headers && headers[name].Number? ==> r.Some? && ParseInt(r.value) == Some(headers[name].number)
    {
      match Header(name)
      case None => None
      case Some(v) => Some(v.ToString())
    }

    /** `getSignal()`. */
    function GetSignal(): (r: Option<string>)
      reads this
      ensures r.None? <==> FTP_COMMAND !in headers
      ensures FTP_COMMAND in headers && headers[FTP_COMMAND].Text? ==> r == Some(headers[FTP_COMMAND].text)
    {
      HeaderString(FTP_COMMAND)
    }

    /** `getArguments()`. */
    function GetArguments(): (r: Option<string>)
      reads this
      ensures r.None? <==> FTP_ARGS !in headers
      ensures FTP_ARGS in headers && headers[FTP_ARGS].Text? ==> r == Some(headers[FTP_ARGS].text)
    {
      HeaderString(FTP_ARGS)
    }

    /** `getReplyString()`. */
    function GetReplyString(): (r: Option<string>)
      reads this
      ensures r.None? <==> FTP_REPLY_STRING !in headers
      ensures FTP_REPLY_STRING in headers && headers[FTP_REPLY_STRING].Text? ==> r == Some(headers[FTP_REPLY_STRING].text)
    {
      HeaderString(FTP_REPLY_STRING)
    }

    /**
     * `getReplyCode()`: the reply-code header wins; without it, the command result's
     * reply code, or 200 when the result has none; without either, null.
     */
    function GetReplyCode(): (r: ReplyCode)
      reads this
      ensures r.NullCode? <==> FTP_REPLY_CODE !in headers && commandResult.None?
      ensures FTP_REPLY_CODE in headers ==> r == Parsed(headers[FTP_REPLY_CODE].ToString())
      ensures FTP_REPLY_CODE !in headers && commandResult.Some? ==>
        var code := commandResult.value.replyCode;
        r == if code.None? then Code(COMMAND_OK) else Parsed(code.value)
    {
      if FTP_REPLY_CODE in headers then
        match headers[FTP_REPLY_CODE]
        case Number(n) => Code(n)
        case Text(s) => Parsed(s)
      else if commandResult.Some? then
        match commandResult.value.replyCode
        case None => Code(COMMAND_OK)
        case Some(s) => Parsed(s)
      else
        NullCode
    }

    /**
     * `hasReplyCode()`: a reply-code header is present, or the command result holds a
     * reply code with text. A message with a reply code never reads back null; one
     * without reads back null, the fallback 200, or a NumberFormatException.
     */
    function HasReplyCode(): (b: bool)
      reads this
      ensures b ==> !GetReplyCode().NullCode?
      ensures !b ==> GetReplyCode() in {NullCode, Code(COMMAND_OK), NumberFormatError}
    {
      || FTP_REPLY_CODE in headers
      || (commandResult.Some? && commandResult.value.replyCode.Some? && HasText(commandResult.value.replyCode.value))
    }

    /** `setHeader(name, value)` of the message base class. */
    method SetHeader(name: string, value: Option<HeaderValue>)
      modifies this`headers
      ensures headers == Assign(old(headers), name, value)
    {
      headers := Assign(headers, name, value);
    }

    /** `setCommandHeader(command)`: the FTP command header chosen by the command's class. */
    method SetCommandHeader(cmd: FtpCommand)
      modifies this`headers
      ensures headers == Assign(old(headers), FTP_COMMAND, TextOf(CommandHeader(cmd)))
      ensures GetSignal() == CommandHeader(cmd)
    {
      SetHeader(FTP_COMMAND, TextOf(CommandHeader(cmd)));
    }

    /** The message built around a command: the command header and the command's arguments. */
    constructor FromCommand(cmd: FtpCommand)
      ensures command == Some(cmd) && commandResult == None
      ensures headers == Assign(Assign(map[], FTP_COMMAND, TextOf(CommandHeader(cmd))), FTP_ARGS, TextOf(cmd.arguments))
      ensures GetSignal() == CommandHeader(cmd) && GetArguments() == cmd.arguments
      ensures GetReplyCode() == NullCode && !HasReplyCode() && GetReplyString() == None
    {
      command := Some(cmd);
      commandResult := None;
      headers := map[];
      new;
      SetCommandHeader(cmd);
      SetHeader(FTP_ARGS, TextOf(cmd.arguments));
    }

    /** The message built around a command result, with no headers yet. */
    constructor FromResult(result: FtpCommandResult)
      ensures commandResult == Some(result) && command == None && headers == map[]
    {
      command := None;
      commandResult := Some(result);
      headers := map[];
    }

    /** `command(FTPCmd)`: a plain command whose signal is the FTP command's name. */
    static method Command(ftpCommand: string) returns (m: FtpMessage)
      ensures fresh(m)
      ensures m.command == Some(FtpCommand(PlainCommand, Some(ftpCommand), None)) && m.commandResult == None
      ensures m.headers == map[FTP_COMMAND := Text(ftpCommand)]
      ensures m.GetSignal() == Some(ftpCommand) && m.GetArguments() == None
      ensures m.GetReplyCode() == NullCode && !m.HasReplyCode() && m.GetReplyString() == None
    {
      var cmd := FtpCommand(PlainCommand, Some(ftpCommand), None);
      m := new FtpMessage.FromCommand(cmd);
    }

    /** `connect(sessionId)`: a connect command, signalled as OPEN. */
    static method Connect(sessionId: string) returns (m: FtpMessage)
      ensures fresh(m)
      ensures m.command == Some(FtpCommand(ConnectCommand(sessionId), Some(OPEN_COMMAND), None)) && m.commandResult == None
      ensures m.headers == map[FTP_COMMAND := Text(OPEN_COMMAND)]
      ensures m.GetSignal() == Some(OPEN_COMMAND) && m.GetArguments() == None
      ensures m.GetReplyCode() == NullCode && !m.HasReplyCode() && m.GetReplyString() == None
    {
      var cmd := FtpCommand(ConnectCommand(sessionId), Some(OPEN_COMMAND), None);
      m := new FtpMessage.FromCommand(cmd);
    }

    /** `put(targetPath, type)`: a STOR command whose file and target paths are both `targetPath`. */
    static method PutWithType(targetPath: string, dataType: DataType) returns (m: FtpMessage)
      ensures fresh(m) && m.commandResult == None
      ensures m.command == Some(FtpCommand(PutCommand(TransferFile(targetPath, dataType.Name()), targetPath), Some(STOR), None))
      ensures m.headers == map[FTP_COMMAND := Text(STOR)]
      ensures m.GetSignal() == Some(STOR) && m.GetArguments() == None
      ensures m.GetReplyCode() == NullCode && !m.HasReplyCode() && m.GetReplyString() == None
    {
      var file := TransferFile(targetPath, dataType.Name());
      var cmd := FtpCommand(PutCommand(file, targetPath), Some(STOR), None);
      m := new FtpMessage.FromCommand(cmd);
    }

    /** `put(targetPath)`: a STOR command in ASCII mode. */
    static method Put(targetPath: string) returns (m: FtpMessage)
      ensures fresh(m) && m.commandResult == None
      ensures m.command == Some(FtpCommand(PutCommand(TransferFile(targetPath, "ASCII"), targetPath), Some(STOR), None))
      ensures m.headers == map[FTP_COMMAND := Text(STOR)]
      ensures m.GetSignal() == Some(STOR) && m.GetArguments() == None
      ensures m.GetReplyCode() == NullCode && !m.HasReplyCode() && m.GetReplyString() == None
    {
      m := PutWithType(targetPath, ASCII);
    }

    /** `get(targetPath, type)`: a RETR command whose file and target paths are both `targetPath`. */
    static method GetWithType(targetPath: string, dataType: DataType) returns (m: FtpMessage)
      ensures fresh(m) && m.commandResult == None
      ensures m.command == Some(FtpCommand(GetCommand(TransferFile(targetPath, dataType.Name()), targetPath), Some(RETR), None))
      ensures m.headers == map[FTP_COMMAND := Text(RETR)]
      ensures m.GetSignal() == Some(RETR) && m.GetArguments() == None
      ensures m.GetReplyCode() == NullCode && !m.HasReplyCode() && m.GetReplyString() == None
    {
      var file := TransferFile(targetPath, dataType.Name());
      var cmd := FtpCommand(GetCommand(file, targetPath), Some(RETR), None);
      m := new FtpMessage.FromCommand(cmd);
    }

    /** `get(targetPath)`: a RETR command in ASCII mode. */
    static method Get(targetPath: string) returns (m: FtpMessage)
      ensures fresh(m) && m.commandResult == None
      ensures m.command == Some(FtpCommand(GetCommand(TransferFile(targetPath, "ASCII"), targetPath), Some(RETR), None))
      ensures m.headers == map[FTP_COMMAND := Text(RETR)]
      ensures m.GetSignal() == Some(RETR) && m.GetArguments() == None
      ensures m.GetReplyCode() == NullCode && !m.HasReplyCode() && m.GetReplyString() == None
    {
      m := GetWithType(targetPath, ASCII);
    }

    /** `delete(targetPath)`: a DELE command on `targetPath`. */
    static method Delete(targetPath: string) returns (m: FtpMessage)
      ensures fresh(m) && m.commandResult == None
      ensures m.command == Some(FtpCommand(DeleteCommand(targetPath), Some(DELE), None))
      ensures m.headers == map[FTP_COMMAND := Text(DELE)]
      ensures m.GetSignal() == Some(DELE) && m.GetArguments() == None
      ensures m.GetReplyCode() == NullCode && !m.HasReplyCode() && m.GetReplyString() == None
    {
      var cmd := FtpCommand(DeleteCommand(targetPath), Some(DELE), None);
      m := new FtpMessage.FromCommand(cmd);
    }

    /** `list(targetPath)`: a LIST command on `targetPath`. */
    static method List(targetPath: string) returns (m: FtpMessage)
      ensures fresh(m) && m.commandResult == None
      ensures m.command == Some(FtpCommand(ListCommand(targetPath), Some(LIST), None))
      ensures m.headers == map[FTP_COMMAND := Text(LIST)]
      ensures m.GetSignal() == Some(LIST) && m.GetArguments() == None
      ensures m.GetReplyCode() == NullCode && !m.HasReplyCode() && m.GetReplyString() == None
    {
      var cmd := FtpCommand(ListCommand(targetPath), Some(LIST), None);
      m := new FtpMessage.FromCommand(cmd);
    }

    /**
     * `result(commandResult)`: the reply-code and reply-string headers copied from the
     * result (absent where the result holds null).
     */
    static method ResultOf(result: FtpCommandResult) returns (m: FtpMessage)
      ensures fresh(m) && m.commandResult == Some(result) && m.command == None
      ensures m.headers == ReplyHeaders(result.replyCode, result.replyString)
      ensures m.GetSignal() == None && m.GetArguments() == None
      ensures m.GetReplyString() == result.replyString
      ensures m.HasReplyCode() <==> result.replyCode.Some?
      ensures result.replyCode.None? ==> m.GetReplyCode() == Code(COMMAND_OK)
      ensures result.replyCode.Some? ==> m.GetReplyCode() == Parsed(result.replyCode.value)
    {
      m := new FtpMessage.FromResult(result);
      m.SetHeader(FTP_REPLY_CODE, TextOf(result.replyCode));
      m.SetHeader(FTP_REPLY_STRING, TextOf(result.replyString));
    }

    /**
     * `result(replyCode, replyString, success)`: the code is stored as its decimal string
     * and reads back as the same number.
     */
    static method Result(replyCode: int32, replyString: Option<string>, success: bool) returns (m: FtpMessage)
      ensures fresh(m) && m.command == None
      ensures m.headers == ReplyHeaders(Some(ValueOf(replyCode)), replyString)
      ensures m.GetSignal() == None && m.GetArguments() == None
      ensures m.commandResult == Some(FtpCommandResult(PlainResult, Some(ValueOf(replyCode)), replyString, success))
      ensures m.Header(FTP_REPLY_CODE) == Some(Text(ValueOf(replyCode)))
      ensures m.GetReplyCode() == Code(replyCode) && m.HasReplyCode()
      ensures m.GetReplyString() == replyString
    {
      var r := FtpCommandResult(PlainResult, Some(ValueOf(replyCode)), replyString, success);
      m := ResultOf(r);
      ParseValueOf(replyCode);
    }

    /** `success()`: a successful result without reply code; the code reads back as 200. */
    static method Success() returns (m: FtpMessage)
      ensures fresh(m) && m.command == None && m.headers == map[]
      ensures m.commandResult == Some(FtpCommandResult(PlainResult, None, None, true))
      ensures !m.HasReplyCode() && m.GetReplyCode() == Code(COMMAND_OK)
      ensures m.GetReplyString() == None && m.GetSignal() == None && m.GetArguments() == None
    {
      m := ResultOf(FtpCommandResult(PlainResult, None, None, true));
    }

    /** `success(replyCode, replyString)`. */
    static method SuccessReply(replyCode: int32, replyString: Option<string>) returns (m: FtpMessage)
      ensures fresh(m) && m.command == None
      ensures m.headers == ReplyHeaders(Some(ValueOf(replyCode)), replyString)
      ensures m.GetSignal() == None && m.GetArguments() == None
      ensures m.commandResult == Some(FtpCommandResult(PlainResult, Some(ValueOf(replyCode)), replyString, true))
      ensures m.GetReplyCode() == Code(replyCode) && m.HasReplyCode()
      ensures m.GetReplyString() == replyString
    {
      m := Result(replyCode, replyString, true);
    }

    /** `success(replyCode)`: a successful result with an empty reply string. */
    static method SuccessCode(replyCode: int32) returns (m: FtpMessage)
      ensures fresh(m) && m.command == None
      ensures m.headers == ReplyHeaders(Some(ValueOf(replyCode)), Some(""))
      ensures m.GetSignal() == None && m.GetArguments() == None
      ensures m.commandResult == Some(FtpCommandResult(PlainResult, Some(ValueOf(replyCode)), Some(""), true))
      ensures m.GetReplyCode() == Code(replyCode) && m.HasReplyCode()
      ensures m.GetReplyString() == Some("")
    {
      m := SuccessReply(replyCode, Some(""));
    }

    /** `error()`: a failed result without reply code; the code reads back as 200. */
    static method Error() returns (m: FtpMessage)
      ensures fresh(m) && m.command == None && m.headers == map[]
      ensures m.commandResult == Some(FtpCommandResult(PlainResult, None, None, false))
      ensures !m.HasReplyCode() && m.GetReplyCode() == Code(COMMAND_OK)
      ensures m.GetReplyString() == None && m.GetSignal() == None && m.GetArguments() == None
    {
      m := ResultOf(FtpCommandResult(PlainResult, None, None, false));
    }

    /**
     * `error(replyCode)` as written: it delegates to `success(replyCode, "")`, so the
     * result it builds is flagged as a success.
     */
    static method ErrorCode(replyCode: int32) returns (m: FtpMessage)
      ensures fresh(m) && m.command == None
      ensures m.headers == ReplyHeaders(Some(ValueOf(replyCode)), Some(""))
      ensures m.GetSignal() == None && m.GetArguments() == None
      ensures m.commandResult == Some(FtpCommandResult(PlainResult, Some(ValueOf(replyCode)), Some(""), true))
      ensures m.commandResult.value.success
      ensures m.GetReplyCode() == Code(replyCode) && m.HasReplyCode()
      ensures m.GetReplyString() == Some("")
    {
      m := SuccessReply(replyCode, Some(""));
    }

    /** `error(replyCode)` as its name and its sibling overloads intend: a failed result. */
    static method ErrorCodeIntended(replyCode: int32) returns (m: FtpMessage)
      ensures fresh(m) && m.command == None
      ensures m.headers == ReplyHeaders(Some(ValueOf(replyCode)), Some(""))
      ensures m.GetSignal() == None && m.GetArguments() == None
      ensures m.commandResult == Some(FtpCommandResult(PlainResult, Some(ValueOf(replyCode)), Some(""), false))
      ensures !m.commandResult.value.success
      ensures m.GetReplyCode() == Code(replyCode) && m.HasReplyCode()
      ensures m.GetReplyString() == Some("")
    {
      m := ErrorReply(replyCode, Some(""));
    }

    /** `error(replyCode, replyString)`: a failed result. */
    static method ErrorReply(replyCode: int32, replyString: Option<string>) returns (m: FtpMessage)
      ensures fresh(m) && m.command == None
      ensures m.headers == ReplyHeaders(Some(ValueOf(replyCode)), replyString)
      ensures m.GetSignal() == None && m.GetArguments() == None
      ensures m.commandResult == Some(FtpCommandResult(PlainResult, Some(ValueOf(replyCode)), replyString, false))
      ensures m.GetReplyCode() == Code(replyCode) && m.HasReplyCode()
      ensures m.GetReplyString() == replyString
    {
      m := Result(replyCode, replyString, false);
    }

    /**
     * `result(replyCode, replyString, fileNames)`: a successful list result with one
     * file entry per name, in the given order.
     */
    static method ListResult(replyCode: int32, replyString: Option<string>, fileNames: seq<string>) returns (m: FtpMessage)
      ensures fresh(m) && m.command == None
      ensures m.headers == ReplyHeaders(Some(ValueOf(replyCode)), replyString)
      ensures m.GetSignal() == None && m.GetArguments() == None
      ensures m.commandResult.Some? && m.commandResult.value.kind.ListCommandResult?
      ensures var r := m.commandResult.value;
              r.replyCode == Some(ValueOf(replyCode)) && r.replyString == replyString && r.success
      ensures var files := m.commandResult.value.kind.files;
              |files| == |fileNames| && forall i | 0 <= i < |files| :: files[i].path == fileNames[i]
      ensures m.GetReplyCode() == Code(replyCode) && m.HasReplyCode()
      ensures m.GetReplyString() == replyString
    {
      var files: seq<ListedFile> := [];
      for i := 0 to |fileNames|
        invariant |files| == i
        invariant forall j | 0 <= j < i :: files[j].path == fileNames[j]
      {
        files := files + [ListedFile(fileNames[i])];
      }
      var r := FtpCommandResult(ListCommandResult(files), Some(ValueOf(replyCode)), replyString, true);
      m := ResultOf(r);
      ParseValueOf(replyCode);
    }

    /**
     * `result(replyCode, replyString, path, content)`: a successful get result holding
     * one file with the given path and content.
     */
    static method GetResult(replyCode: int32, replyString: Option<string>, path: string, content: string) returns (m: FtpMessage)
      ensures fresh(m) && m.command == None
      ensures m.headers == ReplyHeaders(Some(ValueOf(replyCode)), replyString)
      ensures m.GetSignal() == None && m.GetArguments() == None
      ensures m.commandResult == Some(FtpCommandResult(GetCommandResult(RetrievedFile(path, content)),
                                                       Some(ValueOf(replyCode)), replyString, true))
      ensures m.GetReplyCode() == Code(replyCode) && m.HasReplyCode()
      ensures m.GetReplyString() == replyString
    {
      var r := FtpCommandResult(GetCommandResult(RetrievedFile(path, content)), Some(ValueOf(replyCode)), replyString, true);
      m := ResultOf(r);
      ParseValueOf(replyCode);
    }

    /**
     * `arguments(arguments)`: sets the arguments header and, when the message carries a
     * command, the command's arguments; every other header stays as it was.
     */
    method Arguments(arguments: Option<string>) returns (r: FtpMessage)
      modifies this`command, this`headers
      ensures r == this
      ensures command == if old(command).Some? then Some(old(command).value.(arguments := arguments)) else None
      ensures headers == Assign(old(headers), FTP_ARGS, TextOf(arguments))
      ensures GetArguments() == arguments
      ensures forall k | k != FTP_ARGS :: Header(k) == old(Header(k))
      ensures GetSignal() == old(GetSignal()) && GetReplyString() == old(GetReplyString())
      ensures GetReplyCode() == old(GetReplyCode()) && HasReplyCode() == old(HasReplyCode())
    {
      if command.Some? {
        command := Some(command.value.(arguments := arguments));
      }
      SetHeader(FTP_ARGS, TextOf(arguments));
      r := this;
    }
  }

  /**
   * The discrepancy on one input: `error(550)` as written reports success, while
   * `error(550, "")` and the corrected `error(550)` report failure.
   */
  method ErrorCodeCounterexample() returns (asWritten: bool, withReply: bool, intended: bool)
    ensures asWritten && !withReply && !intended
  {
    var m1 := FtpMessage.ErrorCode(550);
    var m2 := FtpMessage.ErrorReply(550, Some(""));
    var m3 := FtpMessage.ErrorCodeIntended(550);
    asWritten := m1.commandResult.value.success;
    withReply := m2.commandResult.value.success;
    intended := m3.commandResult.value.success;
  }
}
