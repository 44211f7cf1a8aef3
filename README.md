# FTP message model

This project models `FtpMessage`, the message that the FTP module of the Citrus integration-test framework exchanges with an FTP client or server. A message holds three things:

- a header map from header name to value;
- an optional command record, such as a connect, STOR, RETR, DELE, LIST or plain command;
- an optional command-result record: a plain result, a list result carrying file entries, or a get result carrying one file.

Static factories build messages. `Arguments` updates a message in place. Query functions read the signal, the arguments, the reply code and the reply string back out of the headers. When there is no reply-code header, the reply-code query falls back to the command result.

Modules:

- `Wrappers` (`wrappers.dfy`): the `Option` type. It stands for a Java reference that may be null.
- `JavaInt` (`java_int.dfy`): Java's 32-bit `int`, `String.valueOf(int)` and `Integer.valueOf(String)`. It also proves the round trip between the two.
- `JavaText` (`java_text.dfy`): `Character.isWhitespace` and Spring's `StringUtils.hasText`.
- `FtpModel` (`ftp_model.dfy`): the command and result records as datatypes. It also holds the command names of section 4.1.3 of RFC 959 and reply code 200 ("Command okay", section 4.2.2 of RFC 959). `CommandHeader` maps each command class to its FTP command header.
- `FtpMessages` (`ftp_message.dfy`): the class `FtpMessage` with fields `headers`, `command` and `commandResult`, its constructors, its factories, the `Arguments` mutator and the queries.

A Java `null` header value reads the same as an absent header, so `Assign` (the model of `setHeader`) removes the key when the value is null. Header values are `Text(string)` or `Number(int32)`. The factories always store text, but the `instanceof Integer` branch of `getReplyCode` is modelled as well. `GetSignal`, `GetArguments` and `GetReplyString` are plain header reads through `HeaderString`. What they return after each factory and after `Arguments` is stated in those members' postconditions.

`arguments` changes the message in place (lines 266-273); the model follows the code.

## Model

| member | source | states |
|---|---|---|
| `JavaInt.ValueOf` | modules/citrus-ftp/src/main/java/com/consol/citrus/ftp/message/FtpMessage.java:216 | The decimal form of a reply code is non-empty and ends in a digit. It starts with `-` exactly when the code is negative. |
| `JavaInt.ParseInt` | modules/citrus-ftp/src/main/java/com/consol/citrus/ftp/message/FtpMessage.java:299 | A string that parses has a decimal digit as its last character. A negative result comes from a string starting with `-`. Anything else is a NumberFormatException (None). |
| `JavaInt.ParseValueOf` | modules/citrus-ftp/src/main/java/com/consol/citrus/ftp/message/FtpMessage.java:292-306 | Parsing the decimal string stored for a reply code gives back the same `int`: the int → string → int round trip. |
| `JavaText.HasText` | modules/citrus-ftp/src/main/java/com/consol/citrus/ftp/message/FtpMessage.java:312-317 | A string has text exactly when some character in it is not whitespace. |
| `FtpMessages.HeaderValue.ToString` | modules/citrus-ftp/src/main/java/com/consol/citrus/ftp/message/FtpMessage.java:296-299 | A text value prints as itself. An `Integer` value prints as a decimal that `Integer.valueOf` parses back to the same number, so the `instanceof Integer` short cut agrees with the `toString` path. |
| `FtpMessages.Parsed` | modules/citrus-ftp/src/main/java/com/consol/citrus/ftp/message/FtpMessage.java:299 | A reply-code string yields a number only when it parses, and then it has text. Otherwise the read ends in NumberFormatException. |
| `FtpModel.CommandHeader` | modules/citrus-ftp/src/main/java/com/consol/citrus/ftp/message/FtpMessage.java:387-401 | Each typed command class gets its own fixed header, and only that class gets it: OPEN for connect, RETR for get, STOR for put, LIST for list, DELE for delete. A plain command's header is its own signal. |
| `FtpMessages.FtpMessage.HeaderString` | modules/citrus-ftp/src/main/java/com/consol/citrus/ftp/message/FtpMessage.java:279 | A header reads back null exactly when it is absent. A text value reads back as itself. An `Integer` value reads back as a decimal that parses to the same number. |
| `FtpMessages.FtpMessage.GetSignal` | modules/citrus-ftp/src/main/java/com/consol/citrus/ftp/message/FtpMessage.java:278-280 | The signal is null exactly when the command header is absent, and otherwise is its text. The factories state its value: OPEN, STOR, RETR, DELE, LIST or the command's own signal, and null for every result message. `Arguments` leaves it unchanged. |
| `FtpMessages.FtpMessage.GetArguments` | modules/citrus-ftp/src/main/java/com/consol/citrus/ftp/message/FtpMessage.java:285-287 | The arguments are null exactly when the arguments header is absent, and otherwise are its text. They are null after every factory, and equal the given value after `Arguments`. |
| `FtpMessages.FtpMessage.GetReplyString` | modules/citrus-ftp/src/main/java/com/consol/citrus/ftp/message/FtpMessage.java:322-330 | The reply string is null exactly when its header is absent, and otherwise is its text. After a result factory it equals the given reply string; it is null for command messages, `success()` and `error()`. |
| `FtpMessages.Assign` | modules/citrus-ftp/src/main/java/com/consol/citrus/ftp/message/FtpMessage.java:224-225 | Putting a header sets that name to the value, or removes it when the value is null. Every other header is kept as it was. |
| `FtpMessages.FtpMessage.GetReplyCode` | modules/citrus-ftp/src/main/java/com/consol/citrus/ftp/message/FtpMessage.java:292-306 | The reply-code header takes precedence over the result. Without the header, the result's code is used, or 200 when the result has none. The read is null exactly when there is neither a header nor a result. |
| `FtpMessages.FtpMessage.HasReplyCode` | modules/citrus-ftp/src/main/java/com/consol/citrus/ftp/message/FtpMessage.java:312-317 | A message with a reply code never reads back null. A message without one reads back only null, the fallback 200, or NumberFormatException. |
| `FtpMessages.FtpMessage.SetHeader` | modules/citrus-ftp/src/main/java/com/consol/citrus/ftp/message/FtpMessage.java:224-225 | The new header map is the old one with the single put applied. |
| `FtpMessages.FtpMessage.SetCommandHeader` | modules/citrus-ftp/src/main/java/com/consol/citrus/ftp/message/FtpMessage.java:387-404 | Only the FTP command header changes. It becomes the header chosen by the command's class, and `GetSignal` returns it afterwards. |
| `FtpMessages.FtpMessage.FromCommand` | modules/citrus-ftp/src/main/java/com/consol/citrus/ftp/message/FtpMessage.java:57-62 | The message holds the command and no result. Its only headers are the command header and the command's arguments. It has no reply code: the read is null and `HasReplyCode` is false. |
| `FtpMessages.FtpMessage.FromResult` | modules/citrus-ftp/src/main/java/com/consol/citrus/ftp/message/FtpMessage.java:68-71 | The message holds the result, no command and no headers. |
| `FtpMessages.FtpMessage.Command` | modules/citrus-ftp/src/main/java/com/consol/citrus/ftp/message/FtpMessage.java:78-82 | The message holds a plain command whose signal is the given FTP command, and `GetSignal` returns that signal. Its only header is the FTP command header holding that signal. |
| `FtpMessages.FtpMessage.Connect` | modules/citrus-ftp/src/main/java/com/consol/citrus/ftp/message/FtpMessage.java:89-94 | The message holds a connect command with the session id, and its signal is "OPEN". Its only header is the FTP command header holding that signal. |
| `FtpMessages.FtpMessage.PutWithType` | modules/citrus-ftp/src/main/java/com/consol/citrus/ftp/message/FtpMessage.java:111-124 | The message holds a put command whose file path and target path both equal the given path, with the data type's name. Its signal is "STOR". Its only header is the FTP command header holding that signal. |
| `FtpMessages.FtpMessage.Put` | modules/citrus-ftp/src/main/java/com/consol/citrus/ftp/message/FtpMessage.java:101-103 | The same as `PutWithType` with the data type ASCII. Its only header is the FTP command header holding that signal. |
| `FtpMessages.FtpMessage.GetWithType` | modules/citrus-ftp/src/main/java/com/consol/citrus/ftp/message/FtpMessage.java:141-154 | The message holds a get command whose file path and target path both equal the given path, with the data type's name. Its signal is "RETR". Its only header is the FTP command header holding that signal. |
| `FtpMessages.FtpMessage.Get` | modules/citrus-ftp/src/main/java/com/consol/citrus/ftp/message/FtpMessage.java:131-133 | The same as `GetWithType` with the data type ASCII. Its only header is the FTP command header holding that signal. |
| `FtpMessages.FtpMessage.Delete` | modules/citrus-ftp/src/main/java/com/consol/citrus/ftp/message/FtpMessage.java:161-169 | The message holds a delete command on the target path, and its signal is "DELE". Its only header is the FTP command header holding that signal. |
| `FtpMessages.FtpMessage.List` | modules/citrus-ftp/src/main/java/com/consol/citrus/ftp/message/FtpMessage.java:176-184 | The message holds a list command on the target path, and its signal is "LIST". Its only header is the FTP command header holding that signal. |
| `FtpMessages.FtpMessage.ResultOf` | modules/citrus-ftp/src/main/java/com/consol/citrus/ftp/message/FtpMessage.java:222-227 | The headers are exactly the result's reply code and reply string, each left absent when null. `HasReplyCode` holds exactly when the result has a code. With no code, the code reads back as 200. The signal and the arguments read null. |
| `FtpMessages.FtpMessage.Result` | modules/citrus-ftp/src/main/java/com/consol/citrus/ftp/message/FtpMessage.java:214-220 | The reply code is stored as its decimal string and reads back as the same number. `HasReplyCode` holds. The reply string reads back as given. Its headers are exactly the reply code's decimal string and the reply string, so the signal and the arguments read null. |
| `FtpMessages.FtpMessage.Success` | modules/citrus-ftp/src/main/java/com/consol/citrus/ftp/message/FtpMessage.java:186-190 | The message holds a successful result with no code and has no headers. `HasReplyCode` is false, yet the code reads back as 200. |
| `FtpMessages.FtpMessage.SuccessCode` | modules/citrus-ftp/src/main/java/com/consol/citrus/ftp/message/FtpMessage.java:192-194 | The message holds a successful result with the code and an empty reply string. Its headers are exactly the reply code's decimal string and the reply string, so the signal and the arguments read null. |
| `FtpMessages.FtpMessage.SuccessReply` | modules/citrus-ftp/src/main/java/com/consol/citrus/ftp/message/FtpMessage.java:196-198 | The message holds a successful result with the given code and reply string, and both read back unchanged. Its headers are exactly the reply code's decimal string and the reply string, so the signal and the arguments read null. |
| `FtpMessages.FtpMessage.Error` | modules/citrus-ftp/src/main/java/com/consol/citrus/ftp/message/FtpMessage.java:200-204 | The message holds a failed result with no code and has no headers. `HasReplyCode` is false, yet the code reads back as 200. |
| `FtpMessages.FtpMessage.ErrorCode` | modules/citrus-ftp/src/main/java/com/consol/citrus/ftp/message/FtpMessage.java:206-208 | As written, the result is exactly what `SuccessCode` builds, with its success flag set to true. Its headers are the same as `SuccessCode`'s too: the code's decimal string and an empty reply string. |
| `FtpMessages.FtpMessage.ErrorCodeIntended` | modules/citrus-ftp/src/main/java/com/consol/citrus/ftp/message/FtpMessage.java:206-208 | Corrected: a failed result with the code and an empty reply string. Its headers are exactly the reply code's decimal string and the reply string, so the signal and the arguments read null. |
| `FtpMessages.ErrorCodeCounterexample` | modules/citrus-ftp/src/main/java/com/consol/citrus/ftp/message/FtpMessage.java:206-212 | For code 550, `error(550)` as written flags success, while `error(550, "")` and the corrected `error(550)` flag failure. |
| `FtpMessages.FtpMessage.ErrorReply` | modules/citrus-ftp/src/main/java/com/consol/citrus/ftp/message/FtpMessage.java:210-212 | The message holds a failed result with the given code and reply string, and both read back unchanged. Its headers are exactly the reply code's decimal string and the reply string, so the signal and the arguments read null. |
| `FtpMessages.FtpMessage.ListResult` | modules/citrus-ftp/src/main/java/com/consol/citrus/ftp/message/FtpMessage.java:229-245 | The message holds a successful list result with one file entry per name, of the same length and in the same order. The code and reply string read back as given. Its headers are exactly the reply code's decimal string and the reply string, so the signal and the arguments read null. |
| `FtpMessages.FtpMessage.GetResult` | modules/citrus-ftp/src/main/java/com/consol/citrus/ftp/message/FtpMessage.java:247-260 | The message holds a successful get result with one file of the given path and content. The code and reply string read back as given. Its headers are exactly the reply code's decimal string and the reply string, so the signal and the arguments read null. |
| `FtpMessages.FtpMessage.Arguments` | modules/citrus-ftp/src/main/java/com/consol/citrus/ftp/message/FtpMessage.java:266-273 | The arguments header is set, and `GetArguments` returns the new arguments. The command's arguments change only when the message carries a command. Every other header keeps its value, so the signal, reply code and reply string are unchanged. The method returns the message itself. |

## Findings

| source | as written | input that shows it | evidently intended | confidence | as-written member | corrected member |
|---|---|---|---|---|---|---|
| modules/citrus-ftp/src/main/java/com/consol/citrus/ftp/message/FtpMessage.java:206-208 | `error(replyCode)` returns `success(replyCode, "")` | `error(550)` builds a result whose success flag is true | a failed result, as `error()` and `error(replyCode, replyString)` build | medium; not executed | `FtpMessages.FtpMessage.ErrorCode` | `FtpMessages.FtpMessage.ErrorCodeIntended` |

## Left out

- `getPayload()`, `getPayload(Class)`, `getCommand()` and `getCommandResult()` (lines 332-381). They marshal and unmarshal through the XML `FtpMarshaller`, a foreign library. In the model the `command` and `commandResult` fields hold the records as set.
- The copy constructor `FtpMessage(Message)` (lines 49-51). It relies on the base class's copying, which is not part of this model.
- The base message's own payload, its id and timestamp headers (a random UUID and a clock reading) and its header insertion order. The model's header map starts empty.
- A header put with a null value leaves a null entry in the Java map. The model removes the key instead; `getHeader` cannot tell the two apart.
- The header names are taken as `citrus_ftp_command`, `citrus_ftp_arguments`, `citrus_ftp_reply_code` and `citrus_ftp_reply_string`. The header constants class is not part of this model; the proofs only need the names to be distinct.
- `FtpMessages.FtpMessage.Command` takes the FTP command's name (`FTPCmd.getCommand()`) instead of the commons-net `FTPCmd` enumeration, which is not part of this model.
- Null paths, session ids, file contents and file-name lists are not modelled. They are stored unchanged (a null `fileNames` would throw). Only the reply string and the arguments, which end up in headers, are nullable in the model.
- A null data type passed to `put(targetPath, type)` or `get(targetPath, type)` is not modelled. Java throws NullPointerException at `type.name()` (lines 117 and 147); the model's `DataType` is never null.
- Header values other than `String` and `Integer` are not modelled. A `Long` or any other object is read through its `toString()` by `getSignal`, `getArguments` and `getReplyString` (lines 279, 286, 326), and parsed with `Integer.valueOf(x.toString())` by `getReplyCode` (line 299). The model's header values are only `Text` and `Number`.
- The success flag is a `bool`. A result passed to `result(commandResult)` with a null flag is not modelled.
- Aliasing: in Java, `arguments` changes the command object in place. Every holder of a reference to it sees the change. The model treats the command as a value owned by the message.
- `JavaInt.ParseInt`: it accepts only ASCII digits. `Integer.valueOf` also accepts other Unicode decimal digits.
- `JavaText.IsWhitespace`: it follows current Unicode. Java 8's older Unicode tables also count U+180E as whitespace.
