/** The command protocol of the WhatsApp webhook: one inbound message is
    parsed into a verb and tokens, logged as `pending`, routed to one of six
    handlers, its log row resolved by id, and the reply sent back inside a
    TwiML envelope. */
module Webhook {
  import opened Wrappers
  import opened Text
  import Json

  // ---------------------------------------------------------------- errors

  /** A value a handler throws: an `Error` instance with its message, or
      any other value. */
  datatype Thrown = ErrorInstance(message: string) | OtherValue

  /** `error instanceof Error ? error.message : 'Unknown error'`. */
  function ErrorMessage(t: Thrown): (m: string)
    ensures t.ErrorInstance? ==> m == t.message
    ensures t.OtherValue? ==> m == "Unknown error"
  {
    match t
    case ErrorInstance(msg) => msg
    case OtherValue => "Unknown error"
  }

  // ---------------------------------------------------------------- parsing

  /** `Body.trim().toUpperCase().split(' ')`: the positional tokens of a
      message, the verb first. Arguments are upper-cased with the verb. */
  function Parse(body: string): (parts: seq<string>)
    ensures |parts| >= 1
    ensures Join(parts, ' ') == Upper(Trim(body))
    ensures forall i :: 0 <= i < |parts| ==> ' ' !in parts[i] && NoAsciiLower(parts[i])
  {
    var text := Upper(Trim(body));
    JoinSplit(text, ' ');
    SplitKeepsNoLower(text, ' ');
    Split(text, ' ')
  }

  /** The verb is the longest space-free prefix of the trimmed, upper-cased body. */
  lemma VerbIsFirstWord(body: string)
    ensures var text := Upper(Trim(body)); var verb := Parse(body)[0];
      ' ' !in verb && |verb| <= |text| && text[..|verb|] == verb &&
      (|verb| == |text| || text[|verb|] == ' ')
  {
    var parts := Parse(body);
    if |parts| > 1 {
      assert Join(parts, ' ') == parts[0] + [' '] + Join(parts[1..], ' ');
    }
  }

  /** A body that is empty or only whitespace gives the single token `""`. */
  lemma BlankBodyParse(body: string)
    requires forall i :: 0 <= i < |body| ==> IsJsWhitespace(body[i])
    ensures Parse(body) == [""]
  {
    TrimEmptyIff(body);
  }

  /** Words without whitespace, joined by single spaces, parse back into
      those words upper-cased. */
  lemma ParseWords(words: seq<string>)
    requires |words| >= 1 && words[0] != [] && words[|words| - 1] != []
    requires forall i, j :: 0 <= i < |words| && 0 <= j < |words[i]| ==> !IsJsWhitespace(words[i][j])
    ensures var parts := Parse(Join(words, ' '));
      |parts| == |words| && forall i :: 0 <= i < |words| ==> parts[i] == Upper(words[i])
  {
    var s := Join(words, ' ');
    var up := seq(|words|, i requires 0 <= i < |words| => Upper(words[i]));
    JoinedWordsTrimmed(words);
    UpperJoin(words, ' ');
    UpperWordsSplit(words);
    assert Upper(Trim(s)) == Join(up, ' ');
    assert Parse(s) == up;
  }

  lemma JoinedWordsTrimmed(words: seq<string>)
    requires |words| >= 1 && words[0] != [] && words[|words| - 1] != []
    requires forall i, j :: 0 <= i < |words| && 0 <= j < |words[i]| ==> !IsJsWhitespace(words[i][j])
    ensures Trim(Join(words, ' ')) == Join(words, ' ')
  {
    JoinFirst(words, ' ');
    JoinLast(words, ' ');
    TrimUntouched(Join(words, ' '));
  }

  lemma UpperWordsSplit(words: seq<string>)
    requires forall i, j :: 0 <= i < |words| && 0 <= j < |words[i]| ==> !IsJsWhitespace(words[i][j])
    requires |words| >= 1
    ensures var up := seq(|words|, i requires 0 <= i < |words| => Upper(words[i]));
      Split(Join(up, ' '), ' ') == up
  {
    var up := seq(|words|, i requires 0 <= i < |words| => Upper(words[i]));
    UpperWordsHaveNoSpace(words);
    SplitJoin(up, ' ');
  }

  lemma UpperWordsHaveNoSpace(words: seq<string>)
    requires forall i, j :: 0 <= i < |words| && 0 <= j < |words[i]| ==> !IsJsWhitespace(words[i][j])
    ensures forall i :: 0 <= i < |words| ==> ' ' !in Upper(words[i])
  {
    forall i | 0 <= i < |words| ensures ' ' !in Upper(words[i]) {
      assert forall j :: 0 <= j < |words[i]| ==> Upper(words[i])[j] == UpperChar(words[i][j]);
    }
  }

  // ---------------------------------------------------------------- handlers

  /** A positional token, `undefined` (None) past the end of the tokens. */
  type Arg = Option<string>

  function Token(parts: seq<string>, i: nat): (a: Arg)
    ensures a.Some? <==> i < |parts|
    ensures a.Some? ==> a.value == parts[i]
  {
    if i < |parts| then Some(parts[i]) else None
  }

  /** How a template literal interpolates a token: `undefined` reads as the text "undefined". */
  function Render(a: Arg): (s: string)
    ensures a.Some? ==> s == a.value
    ensures a.None? ==> s == "undefined"
  {
    match a
    case Some(v) => v
    case None => "undefined"
  }

  /** A rendered token tells which token it was, or that there was none:
      tokens hold no lower-case letter, "undefined" does. */
  lemma RenderInjective(a: Arg, b: Arg)
    requires a.Some? ==> NoAsciiLower(a.value)
    requires b.Some? ==> NoAsciiLower(b.value)
    ensures Render(a) == Render(b) <==> a == b
  {
    assert IsAsciiLower("undefined"[0]);
  }

  /** `folder || 'root'`: a missing or empty folder names the root. */
  function FolderOrRoot(folder: Arg): (name: string)
    ensures folder.None? || folder == Some("") ==> name == "root"
    ensures folder.Some? && folder.value != "" ==> name == folder.value
    ensures name != ""
  {
    if folder.None? || folder.value == "" then "root" else folder.value
  }

  /** The placeholder listing `handleList` sends after the folder name. */
  const ListingTail: string := "...\n\nFiles:\n- document.pdf\n- report.xlsx\n- image.png"

  /** handleList: the reply names the folder, or `root` when there is none. */
  function ListReply(folder: Arg): (r: string)
    ensures Between(r, "Listing files in ", ListingTail) == Some(FolderOrRoot(folder))
  {
    BetweenFrame("Listing files in ", FolderOrRoot(folder), ListingTail);
    "Listing files in " + FolderOrRoot(folder) + ListingTail
  }

  /** handleDelete: the reply names the file path. */
  function DeleteReply(filePath: Arg): (r: string)
    ensures Between(r, "File ", " deleted successfully.") == Some(Render(filePath))
  {
    BetweenFrame("File ", Render(filePath), " deleted successfully.");
    "File " + Render(filePath) + " deleted successfully."
  }

  /** handleMove: the reply names the source, then the destination. */
  function MoveReply(source: Arg, destination: Arg): (r: string)
    ensures Between(r, "Moved ", " successfully.") == Some(Render(source) + " to " + Render(destination))
  {
    BetweenFrame("Moved ", Render(source) + " to " + Render(destination), " successfully.");
    "Moved " + (Render(source) + " to " + Render(destination)) + " successfully."
  }

  /** handleRename: the reply names the old name, then the new name. */
  function RenameReply(oldName: Arg, newName: Arg): (r: string)
    ensures Between(r, "Renamed ", " successfully.") == Some(Render(oldName) + " to " + Render(newName))
  {
    BetweenFrame("Renamed ", Render(oldName) + " to " + Render(newName), " successfully.");
    "Renamed " + (Render(oldName) + " to " + Render(newName)) + " successfully."
  }

  /** handleUpload: the reply names the folder and the file name, joined by `/`. */
  function UploadReply(folder: Arg, filename: Arg): (r: string)
    ensures Between(r, "Ready to receive file for upload to ", "") == Some(Render(folder) + "/" + Render(filename))
  {
    BetweenFrame("Ready to receive file for upload to ", Render(folder) + "/" + Render(filename), "");
    "Ready to receive file for upload to " + (Render(folder) + "/" + Render(filename)) + ""
  }

  /** Unlike the MOVE reply, the UPLOAD reply does not tell its tokens apart:
      a `/` may belong to the folder or to the file name. */
  lemma UploadReplyAmbiguous(a: string, b: string, c: string)
    ensures Some(a + "/" + b) != Some(a)
    ensures UploadReply(Some(a + "/" + b), Some(c)) == UploadReply(Some(a), Some(b + "/" + c))
  {
    assert |a + "/" + b| > |a|;
  }

  /** What the `ai-summarize` function answers for a folder: a summary, or
      the error the invocation reports. */
  datatype SummaryOutcome = Summarised(summary: string) | InvokeFailed(thrown: Thrown)

  /** How a handler ends: with its reply text, or by throwing. */
  datatype HandlerResult = Returned(text: string) | Raised(thrown: Thrown)

  /** handleSummary: the summariser's summary, or its error thrown on. */
  function SummaryHandler(folder: Arg, summarise: Arg -> SummaryOutcome): (r: HandlerResult)
    ensures r.Returned? <==> summarise(folder).Summarised?
    ensures r.Returned? ==> r.text == summarise(folder).summary
    ensures r.Raised? ==> r.thrown == summarise(folder).thrown
  {
    match summarise(folder)
    case Summarised(text) => Returned(text)
    case InvokeFailed(e) => Raised(e)
  }

  /** Four space-free words joined by single spaces split back into those words. */
  lemma FourWordsSplit(a: string, b: string, c: string, d: string)
    requires ' ' !in a && ' ' !in b && ' ' !in c && ' ' !in d
    ensures Split(a + " " + b + " " + c + " " + d, ' ') == [a, b, c, d]
  {
    JoinFour(a, b, c, d);
    SplitJoin([a, b, c, d], ' ');
  }

  /** Four words joined by single spaces. */
  lemma JoinFour(a: string, b: string, c: string, d: string)
    ensures Join([a, b, c, d], ' ') == a + " " + b + " " + c + " " + d
  {
    var w := [a, b, c, d];
    assert w[1..] == [b, c, d] && w[1..][1..] == [c, d] && w[1..][1..][1..] == [d];
  }

  /** Five words joined by single spaces. */
  lemma JoinFive(a: string, b: string, c: string, d: string, e: string)
    ensures Join([a, b, c, d, e], ' ') == a + " " + b + " " + c + " " + d + " " + e
  {
    var w := [a, b, c, d, e];
    assert w[1..] == [b, c, d, e] && w[1..][1..] == [c, d, e];
    assert w[1..][1..][1..] == [d, e] && w[1..][1..][1..][1..] == [e];
  }

  /** A four-word reply written with its fixed words' spaces attached. */
  lemma SpacedFour(a: string, b: string, c: string, d: string)
    ensures (a + " ") + b + (" " + c + " " + d) == a + " " + b + " " + c + " " + d
  {
  }

  /** A five-word reply written with its fixed words' spaces attached. */
  lemma SpacedFive(a: string, b: string, c: string, d: string, e: string)
    ensures (a + " ") + (b + (" " + c + " ") + d) + (" " + e) == a + " " + b + " " + c + " " + d + " " + e
  {
  }

  /** Five space-free words joined by single spaces split back into those words. */
  lemma FiveWordsSplit(a: string, b: string, c: string, d: string, e: string)
    requires ' ' !in a && ' ' !in b && ' ' !in c && ' ' !in d && ' ' !in e
    ensures Split(a + " " + b + " " + c + " " + d + " " + e, ' ') == [a, b, c, d, e]
  {
    JoinFive(a, b, c, d, e);
    SplitJoin([a, b, c, d, e], ' ');
  }

  /** The words of a DELETE reply are its fixed words around the file path. */
  lemma DeleteReplyWords(filePath: Arg)
    requires ' ' !in Render(filePath)
    ensures Split(DeleteReply(filePath), ' ') == ["File", Render(filePath), "deleted", "successfully."]
  {
    var x := Render(filePath);
    assert "File " == "File" + " " && " deleted successfully." == " " + "deleted" + " " + "successfully.";
    SpacedFour("File", x, "deleted", "successfully.");
    FourWordsSplit("File", x, "deleted", "successfully.");
  }

  /** The words of a MOVE reply name the source and the destination. */
  lemma MoveReplyWords(source: Arg, destination: Arg)
    requires ' ' !in Render(source) && ' ' !in Render(destination)
    ensures Split(MoveReply(source, destination), ' ') ==
      ["Moved", Render(source), "to", Render(destination), "successfully."]
  {
    var x, y := Render(source), Render(destination);
    assert "Moved " == "Moved" + " " && " to " == " " + "to" + " " && " successfully." == " " + "successfully.";
    SpacedFive("Moved", x, "to", y, "successfully.");
    FiveWordsSplit("Moved", x, "to", y, "successfully.");
  }

  /** The words of a RENAME reply name the old and the new name. */
  lemma RenameReplyWords(oldName: Arg, newName: Arg)
    requires ' ' !in Render(oldName) && ' ' !in Render(newName)
    ensures Split(RenameReply(oldName, newName), ' ') ==
      ["Renamed", Render(oldName), "to", Render(newName), "successfully."]
  {
    var x, y := Render(oldName), Render(newName);
    assert "Renamed " == "Renamed" + " " && " to " == " " + "to" + " " && " successfully." == " " + "successfully.";
    SpacedFive("Renamed", x, "to", y, "successfully.");
    FiveWordsSplit("Renamed", x, "to", y, "successfully.");
  }

  /** The reply to a MOVE tells exactly which two tokens it was given,
      including which of them were missing. */
  lemma MoveReplyDeterminesTokens(p: seq<string>, q: seq<string>)
    requires forall i :: 0 <= i < |p| ==> ' ' !in p[i] && NoAsciiLower(p[i])
    requires forall i :: 0 <= i < |q| ==> ' ' !in q[i] && NoAsciiLower(q[i])
    ensures MoveReply(Token(p, 1), Token(p, 2)) == MoveReply(Token(q, 1), Token(q, 2)) <==>
      Token(p, 1) == Token(q, 1) && Token(p, 2) == Token(q, 2)
  {
    if MoveReply(Token(p, 1), Token(p, 2)) == MoveReply(Token(q, 1), Token(q, 2)) {
      MoveReplyWords(Token(p, 1), Token(p, 2));
      MoveReplyWords(Token(q, 1), Token(q, 2));
      RenderInjective(Token(p, 1), Token(q, 1));
      RenderInjective(Token(p, 2), Token(q, 2));
    }
  }

  // ---------------------------------------------------------------- dispatch

  /** The six verbs the webhook routes. */
  datatype Command = List | Delete | Move | Rename | Upload | Summary

  function CommandName(c: Command): string {
    match c
    case List => "LIST"
    case Delete => "DELETE"
    case Move => "MOVE"
    case Rename => "RENAME"
    case Upload => "UPLOAD"
    case Summary => "SUMMARY"
  }

  /** The command a verb names, if it names one. */
  function Classify(verb: string): (c: Option<Command>)
    ensures c.Some? ==> CommandName(c.value) == verb
    ensures c.None? ==> forall k: Command :: CommandName(k) != verb
  {
    if verb == "LIST" then Some(List)
    else if verb == "DELETE" then Some(Delete)
    else if verb == "MOVE" then Some(Move)
    else if verb == "RENAME" then Some(Rename)
    else if verb == "UPLOAD" then Some(Upload)
    else if verb == "SUMMARY" then Some(Summary)
    else None
  }

  const UnknownCommandText: string :=
    "Unknown command. Available commands: LIST, DELETE, MOVE, RENAME, UPLOAD, SUMMARY"

  /** Runs the handler of a command on the tokens. Only SUMMARY can throw,
      and only when the summariser fails. */
  function Handle(c: Command, parts: seq<string>, summarise: Arg -> SummaryOutcome): (r: HandlerResult)
    ensures r.Raised? <==> c == Summary && summarise(Token(parts, 1)).InvokeFailed?
    ensures r.Raised? ==> r.thrown == summarise(Token(parts, 1)).thrown
  {
    match c
    case List => Returned(ListReply(Token(parts, 1)))
    case Delete => Returned(DeleteReply(Token(parts, 1)))
    case Move => Returned(MoveReply(Token(parts, 1), Token(parts, 2)))
    case Rename => Returned(RenameReply(Token(parts, 1), Token(parts, 2)))
    case Upload => Returned(UploadReply(Token(parts, 1), Token(parts, 2)))
    case Summary => SummaryHandler(Token(parts, 1), summarise)
  }

  /** The status column of a command log row. */
  datatype Status = Pending | Success | Error

  /** The text stored in the `status` column. */
  function StatusText(s: Status): string {
    match s
    case Pending => "pending"
    case Success => "success"
    case Error => "error"
  }

  /** The dashboard counts a row as `success` or `pending` by its stored
      text; that text names exactly one status. */
  lemma StatusTextNamesStatus(a: Status, b: Status)
    ensures StatusText(a) == "success" <==> a == Success
    ensures StatusText(a) == "pending" <==> a == Pending
    ensures StatusText(a) == "error" <==> a == Error
    ensures StatusText(a) == StatusText(b) <==> a == b
  {
  }

  /** The reply and the final status of one command. */
  datatype Outcome = Outcome(reply: string, status: Status)

  /** What one command comes to: an unknown verb gets the fixed help text
      and `error`; a handler that returns gives its text and `success`; a
      handler that throws gives "Error: " and the message, and `error`. */
  function Dispatch(parts: seq<string>, summarise: Arg -> SummaryOutcome): (out: Outcome)
    requires |parts| >= 1
    ensures out.status != Pending
    ensures Classify(parts[0]).None? ==> out == Outcome(UnknownCommandText, Error)
    ensures out.status == Error <==>
      Classify(parts[0]).None? ||
      (parts[0] == "SUMMARY" && summarise(Token(parts, 1)).InvokeFailed?)
    ensures parts[0] == "SUMMARY" && summarise(Token(parts, 1)).InvokeFailed? ==>
      out.reply == "Error: " + ErrorMessage(summarise(Token(parts, 1)).thrown)
  {
    match Classify(parts[0])
    case None => Outcome(UnknownCommandText, Error)
    case Some(c) =>
      match Handle(c, parts, summarise)
      case Returned(text) => Outcome(text, Success)
      case Raised(e) => Outcome("Error: " + ErrorMessage(e), Error)
  }

  /** A known verb whose handler returns replies with exactly the handler's text. */
  lemma DispatchKnownVerb(parts: seq<string>, c: Command, summarise: Arg -> SummaryOutcome)
    requires |parts| >= 1 && parts[0] == CommandName(c)
    requires Handle(c, parts, summarise).Returned?
    ensures Dispatch(parts, summarise) == Outcome(Handle(c, parts, summarise).text, Success)
  {
    assert Classify(parts[0]) == Some(c);
  }

  /** Only SUMMARY consults the summariser: for every other verb, known or
      not, the outcome is the same whatever the summariser would answer. */
  lemma DispatchIgnoresSummariser(parts: seq<string>, s1: Arg -> SummaryOutcome, s2: Arg -> SummaryOutcome)
    requires |parts| >= 1 && parts[0] != "SUMMARY"
    ensures Dispatch(parts, s1) == Dispatch(parts, s2)
  {
  }

  /** `UPLOAD /Reports file.pdf` is acknowledged for the upper-cased folder and file name. */
  lemma UploadExample(body: string, summarise: Arg -> SummaryOutcome)
    requires body == "UPLOAD /Reports file.pdf"
    ensures Parse(body) == ["UPLOAD", "/REPORTS", "FILE.PDF"]
    ensures Dispatch(Parse(body), summarise) ==
      Outcome("Ready to receive file for upload to /REPORTS/FILE.PDF", Success)
  {
    ParseUploadExample(body, ["UPLOAD", "/Reports", "file.pdf"]);
    DispatchUploadTokens(Parse(body), summarise);
  }

  lemma ParseUploadExample(body: string, words: seq<string>)
    requires body == "UPLOAD /Reports file.pdf"
    requires words == ["UPLOAD", "/Reports", "file.pdf"]
    ensures Parse(body) == ["UPLOAD", "/REPORTS", "FILE.PDF"]
  {
    UploadWordsPlain(body, words);
    ParseWords(words);
    UploadWordsUpper();
  }

  /** The words of the UPLOAD example make up its body and hold no whitespace. */
  lemma UploadWordsPlain(body: string, words: seq<string>)
    requires body == "UPLOAD /Reports file.pdf"
    requires words == ["UPLOAD", "/Reports", "file.pdf"]
    ensures Join(words, ' ') == body
    ensures |words| >= 1 && words[0] != [] && words[|words| - 1] != []
    ensures forall i, j :: 0 <= i < |words| && 0 <= j < |words[i]| ==> !IsJsWhitespace(words[i][j])
  {
  }

  lemma UploadWordsUpper()
    ensures Upper("UPLOAD") == "UPLOAD" && Upper("/Reports") == "/REPORTS" && Upper("file.pdf") == "FILE.PDF"
  {
  }

  lemma DispatchUploadTokens(parts: seq<string>, summarise: Arg -> SummaryOutcome)
    requires parts == ["UPLOAD", "/REPORTS", "FILE.PDF"]
    ensures Dispatch(parts, summarise) ==
      Outcome("Ready to receive file for upload to /REPORTS/FILE.PDF", Success)
  {
    assert parts[0] == CommandName(Upload);
    UploadTokensReply(Token(parts, 1), Token(parts, 2));
    DispatchKnownVerb(parts, Upload, summarise);
  }

  lemma UploadTokensReply(folder: Arg, filename: Arg)
    requires folder == Some("/REPORTS") && filename == Some("FILE.PDF")
    ensures UploadReply(folder, filename) == "Ready to receive file for upload to /REPORTS/FILE.PDF"
  {
  }

  /** `MOVE /a.pdf` is not rejected for its missing destination: the reply
      names the destination "undefined" and the status is `success`. */
  lemma MoveMissingDestinationExample(body: string, summarise: Arg -> SummaryOutcome)
    requires body == "MOVE /a.pdf"
    ensures Parse(body) == ["MOVE", "/A.PDF"]
    ensures Dispatch(Parse(body), summarise) ==
      Outcome("Moved /A.PDF to undefined successfully.", Success)
  {
    ParseMoveExample(body);
    DispatchMoveTokens(Parse(body), summarise);
  }

  lemma ParseMoveExample(body: string)
    requires body == "MOVE /a.pdf"
    ensures Parse(body) == ["MOVE", "/A.PDF"]
  {
    var words := ["MOVE", "/a.pdf"];
    assert Join(words, ' ') == body;
    ParseWords(words);
    assert Upper("MOVE") == "MOVE";
    assert Upper("/a.pdf") == "/A.PDF";
  }

  lemma DispatchMoveTokens(parts: seq<string>, summarise: Arg -> SummaryOutcome)
    requires parts == ["MOVE", "/A.PDF"]
    ensures Dispatch(parts, summarise) ==
      Outcome("Moved /A.PDF to undefined successfully.", Success)
  {
    assert parts[0] == CommandName(Move);
    MoveTokensReply(Token(parts, 1), Token(parts, 2));
    DispatchKnownVerb(parts, Move, summarise);
  }

  lemma MoveTokensReply(source: Arg, destination: Arg)
    requires source == Some("/A.PDF") && destination == None
    ensures MoveReply(source, destination) == "Moved /A.PDF to undefined successfully."
  {
    MovedLiteral(Render(source), Render(destination));
  }

  lemma MovedLiteral(x: string, y: string)
    requires x == "/A.PDF" && y == "undefined"
    ensures "Moved " + (x + " to " + y) + " successfully." == "Moved /A.PDF to undefined successfully."
  {
  }

  /** `FOO bar` gets the help text and `error`. */
  lemma UnknownVerbExample(body: string, summarise: Arg -> SummaryOutcome)
    requires body == "FOO bar"
    ensures Dispatch(Parse(body), summarise) == Outcome(UnknownCommandText, Error)
  {
    var words := ["FOO", "bar"];
    assert Join(words, ' ') == body;
    ParseWords(words);
    var parts := Parse(body);
    assert parts[0] == Upper("FOO") == "FOO";
    assert Classify(parts[0]).None?;
  }

  /** The command switch and its catch, with `response` and `status`
      reassigned as the request handler does. */
  method RouteCommand(parts: seq<string>, summarise: Arg -> SummaryOutcome)
    returns (response: string, status: Status)
    requires |parts| >= 1
    ensures Outcome(response, status) == Dispatch(parts, summarise)
  {
    var command := parts[0];
    response := "";
    status := Success;
    var thrown: Option<Thrown> := None;
    if command == "LIST" {
      response := ListReply(Token(parts, 1));
    } else if command == "DELETE" {
      response := DeleteReply(Token(parts, 1));
    } else if command == "MOVE" {
      response := MoveReply(Token(parts, 1), Token(parts, 2));
    } else if command == "RENAME" {
      response := RenameReply(Token(parts, 1), Token(parts, 2));
    } else if command == "UPLOAD" {
      response := UploadReply(Token(parts, 1), Token(parts, 2));
    } else if command == "SUMMARY" {
      match SummaryHandler(Token(parts, 1), summarise)
      case Returned(text) => response := text;
      case Raised(e) => thrown := Some(e);
    } else {
      response := UnknownCommandText;
      status := Error;
    }
    if thrown.Some? {
      response := "Error: " + ErrorMessage(thrown.value);
      status := Error;
    }
  }

  // ---------------------------------------------------------------- log store

  /** One row of the `command_logs` table; its id is the key it is stored under. */
  datatype LogEntry = LogEntry(command: string, status: Status, details: string, userPhone: string)

  /** The `command_logs` table as the webhook uses it: rows by id, an
      insert that returns the new row's id unless the store refuses it, and
      an update of the row with a given id. Whether the store accepts a
      call is decided outside the model and passed in. */
  class LogStore {
    var rows: map<nat, LogEntry>
    var nextId: nat

    ghost predicate Valid()
      reads this
    {
      forall id :: id in rows ==> id < nextId
    }

    constructor ()
      ensures Valid() && rows == map[]
    {
      rows := map[];
      nextId := 0;
    }

    /** `insert(...).select().single()`: a fresh id for the new row, or none. */
    method Insert(entry: LogEntry, accepted: bool) returns (id: Option<nat>)
      requires Valid()
      modifies this
      ensures Valid()
      ensures id.Some? <==> accepted
      ensures id.Some? ==>
        (id.value == old(nextId) && id.value !in old(rows) && rows == old(rows)[id.value := entry])
      ensures id.None? ==> rows == old(rows)
      ensures nextId >= old(nextId)
    {
      if accepted {
        id := Some(nextId);
        rows := rows[nextId := entry];
        nextId := nextId + 1;
      } else {
        id := None;
      }
    }

    /** `update({ status, details }).eq('id', id)`: sets those two columns of
        the row with that id, if there is one; every other row stays as it is. */
    method UpdateById(id: nat, status: Status, details: string, accepted: bool)
      requires Valid()
      modifies this
      ensures Valid() && nextId == old(nextId)
      ensures rows ==
        if accepted && id in old(rows)
        then old(rows)[id := old(rows)[id].(status := status, details := details)]
        else old(rows)
    {
      if accepted && id in rows {
        rows := rows[id := rows[id].(status := status, details := details)];
      }
    }
  }

  // ---------------------------------------------------------------- HTTP

  type Header = (string, string)

  datatype HttpResponse = HttpResponse(status: nat, headers: seq<Header>, body: Option<string>)

  const CorsHeaders: seq<Header> := [
    ("Access-Control-Allow-Origin", "*"),
    ("Access-Control-Allow-Headers", "authorization, x-client-info, apikey, content-type")
  ]

  /** The value of the first header with the given name. */
  function HeaderValue(headers: seq<Header>, name: string): (v: Option<string>)
    ensures v.Some? ==> (name, v.value) in headers
    ensures v.None? ==> forall i :: 0 <= i < |headers| ==> headers[i].0 != name
    decreases |headers|
  {
    if headers == [] then None
    else if headers[0].0 == name then Some(headers[0].1)
    else HeaderValue(headers[1..], name)
  }

  /** The answer to a CORS preflight: no body, the CORS headers, the default status. */
  function PreflightResponse(): (r: HttpResponse)
    ensures r.status == 200 && r.headers == CorsHeaders && r.body.None?
  {
    HttpResponse(200, CorsHeaders, None)
  }

  const XmlHead: string := "<?xml version=\"1.0\" encoding=\"UTF-8\"?>\n      <Response>\n        <Message>"
  const XmlTail: string := "</Message>\n      </Response>"

  /** The TwiML document with the reply inside `<Message>`, unescaped. */
  function TwimlBody(reply: string): (body: string)
    ensures TwimlMessage(body) == Some(reply)
  {
    BetweenFrame(XmlHead, reply, XmlTail);
    XmlHead + reply + XmlTail
  }

  /** The text between the fixed head and tail of the TwiML envelope, cut out
      by position; this is not an XML parse. */
  function TwimlMessage(body: string): (m: Option<string>) {
    Between(body, XmlHead, XmlTail)
  }

  /** The TwiML answer: status 200, the CORS headers, then the XML content
      type, and a body whose text between the envelope's head and tail is the reply. */
  function TwimlResponse(reply: string): (r: HttpResponse)
    ensures r.status == 200 && |r.headers| == 3 && r.headers[..2] == CorsHeaders
    ensures HeaderValue(r.headers, "Content-Type") == Some("text/xml")
    ensures r.body.Some? && TwimlMessage(r.body.value) == Some(reply)
  {
    ContentTypeAfterCors("text/xml");
    HttpResponse(200, CorsHeaders + [("Content-Type", "text/xml")], Some(TwimlBody(reply)))
  }

  /** The answer to a request that threw: status 500, the CORS headers, then
      the JSON content type, and a body the error message reads back from. */
  function ErrorResponse(message: string): (r: HttpResponse)
    ensures r.status == 500 && |r.headers| == 3 && r.headers[..2] == CorsHeaders
    ensures HeaderValue(r.headers, "Content-Type") == Some("application/json")
    ensures r.body.Some? && Json.ReadErrorObject(r.body.value) == Some(message)
  {
    ContentTypeAfterCors("application/json");
    Json.ErrorObjectRoundTrip(message);
    HttpResponse(500, CorsHeaders + [("Content-Type", "application/json")], Some(Json.ErrorObject(message)))
  }

  /** The three kinds of answer the webhook gives. */
  datatype Shape = PreflightShape | XmlShape | JsonErrorShape

  /** Which kind of answer a response is, read off its status, content type and body. */
  function ShapeOf(r: HttpResponse): (s: Option<Shape>) {
    if r.body.None? then Some(PreflightShape)
    else if r.status == 500 && HeaderValue(r.headers, "Content-Type") == Some("application/json") then Some(JsonErrorShape)
    else if r.status == 200 && HeaderValue(r.headers, "Content-Type") == Some("text/xml") then Some(XmlShape)
    else None
  }

  /** The content type appended after the CORS headers is the one the headers name. */
  lemma ContentTypeAfterCors(value: string)
    ensures HeaderValue(CorsHeaders + [("Content-Type", value)], "Content-Type") == Some(value)
  {
    var hs := CorsHeaders + [("Content-Type", value)];
    assert hs[0].0 != "Content-Type" && hs[1].0 != "Content-Type";
    assert hs[1..][1..] == [("Content-Type", value)];
    assert HeaderValue([("Content-Type", value)], "Content-Type") == Some(value);
    assert HeaderValue(hs[1..], "Content-Type") == HeaderValue(hs[1..][1..], "Content-Type");
  }

  /** Every answer carries the CORS headers first; the three kinds are told
      apart by their shape; the TwiML body holds the reply between the
      envelope's head and tail, and the JSON body reads back as the error message. */
  lemma ResponseShapes(reply: string, message: string)
    ensures PreflightResponse().headers[..2] == CorsHeaders && ShapeOf(PreflightResponse()) == Some(PreflightShape)
    ensures TwimlResponse(reply).headers[..2] == CorsHeaders && ShapeOf(TwimlResponse(reply)) == Some(XmlShape)
    ensures ErrorResponse(message).headers[..2] == CorsHeaders && ShapeOf(ErrorResponse(message)) == Some(JsonErrorShape)
    ensures TwimlMessage(TwimlResponse(reply).body.value) == Some(reply)
    ensures Json.ReadErrorObject(ErrorResponse(message).body.value) == Some(message)
  {
  }

  // ---------------------------------------------------------------- request

  /** The form fields of an inbound message. */
  datatype InboundMessage = InboundMessage(body: string, from: string, messageSid: string)

  /** `formData.get(name) as string || ''`. */
  function FormField(fields: map<string, string>, name: string): (v: string)
    ensures name in fields ==> v == fields[name]
    ensures name !in fields ==> v == ""
  {
    if name in fields then fields[name] else ""
  }

  /** The three text fields of the form, each `''` when absent. */
  function ReadMessage(fields: map<string, string>): (m: InboundMessage)
    ensures "Body" in fields ==> m.body == fields["Body"]
    ensures "From" in fields ==> m.from == fields["From"]
    ensures "MessageSid" in fields ==> m.messageSid == fields["MessageSid"]
    ensures "Body" !in fields ==> m.body == ""
    ensures "From" !in fields ==> m.from == ""
    ensures "MessageSid" !in fields ==> m.messageSid == ""
  {
    InboundMessage(FormField(fields, "Body"), FormField(fields, "From"), FormField(fields, "MessageSid"))
  }

  /** The request body: the form fields, or what reading the request (or
      setting up the client before it) threw. */
  datatype Payload = Form(fields: map<string, string>) | Unreadable(thrown: Thrown)

  datatype Request = Request(httpMethod: string, payload: Payload)

  /** What the collaborators answer during one request: whether the log
      store accepts the insert and the update, and the summariser. */
  datatype Environment = Environment(insertAccepted: bool, updateAccepted: bool, summarise: Arg -> SummaryOutcome)

  /** The log row one message leaves behind, given the id the insert
      would get: none if the insert is refused, the `pending` row if only
      the update is refused, and the resolved row otherwise. */
  function LoggedRows(rows: map<nat, LogEntry>, id: nat, msg: InboundMessage, env: Environment): (r: map<nat, LogEntry>)
    ensures !env.insertAccepted ==> r == rows
    ensures env.insertAccepted ==>
      id in r && r[id].command == Parse(msg.body)[0] && r[id].userPhone == msg.from
    ensures env.insertAccepted && !env.updateAccepted ==> r[id].details == msg.body
    ensures env.insertAccepted && env.updateAccepted ==>
      r[id].status == Dispatch(Parse(msg.body), env.summarise).status &&
      r[id].details == Dispatch(Parse(msg.body), env.summarise).reply
  {
    var parts := Parse(msg.body);
    var out := Dispatch(parts, env.summarise);
    if !env.insertAccepted then rows
    else if !env.updateAccepted then rows[id := LogEntry(parts[0], Pending, msg.body, msg.from)]
    else rows[id := LogEntry(parts[0], out.status, out.reply, msg.from)]
  }

  /** Parse, log pending, dispatch, resolve the log row: the part of the
      request handler between reading the form and answering. */
  method ProcessMessage(store: LogStore, message: InboundMessage, env: Environment) returns (response: string)
    requires store.Valid()
    modifies store
    ensures store.Valid()
    ensures response == Dispatch(Parse(message.body), env.summarise).reply
    ensures old(store.nextId) !in old(store.rows)
    ensures store.rows == LoggedRows(old(store.rows), old(store.nextId), message, env)
  {
    var parts := Parse(message.body);
    var command := parts[0];
    ghost var rows0, id0 := store.rows, store.nextId;
    ghost var out := Dispatch(parts, env.summarise);
    LoggedRowsCases(rows0, id0, message, env);
    var pending := LogEntry(command, Pending, message.body, message.from);
    var logId := store.Insert(pending, env.insertAccepted);
    var status;
    response, status := RouteCommand(parts, env.summarise);
    assert response == out.reply && status == out.status;
    if logId.Some? {
      assert store.rows == rows0[id0 := pending] && logId.value == id0 && id0 in store.rows;
      store.UpdateById(logId.value, status, response, env.updateAccepted);
      if env.updateAccepted {
        assert store.rows == rows0[id0 := pending][id0 := LogEntry(command, status, response, message.from)];
        OverwriteTwice(rows0, id0, pending, LogEntry(command, status, response, message.from));
      }
    }
  }

  lemma LoggedRowsCases(rows: map<nat, LogEntry>, id: nat, msg: InboundMessage, env: Environment)
    ensures var parts := Parse(msg.body);
      var out := Dispatch(parts, env.summarise);
      (!env.insertAccepted ==> LoggedRows(rows, id, msg, env) == rows) &&
      (env.insertAccepted && !env.updateAccepted ==>
        LoggedRows(rows, id, msg, env) == rows[id := LogEntry(parts[0], Pending, msg.body, msg.from)]) &&
      (env.insertAccepted && env.updateAccepted ==>
        LoggedRows(rows, id, msg, env) == rows[id := LogEntry(parts[0], out.status, out.reply, msg.from)])
  {
  }

  /** The row a message leaves behind says `pending` exactly when the
      update that resolves it was refused: the status the update writes is
      never `pending`. */
  lemma LoggedStatusPendingIff(rows: map<nat, LogEntry>, id: nat, msg: InboundMessage, env: Environment)
    requires env.insertAccepted
    ensures LoggedRows(rows, id, msg, env)[id].status == Pending <==> !env.updateAccepted
  {
  }

  /** A message changes no row other than the one under the id its insert gets. */
  lemma LoggedRowsFrame(rows: map<nat, LogEntry>, id: nat, msg: InboundMessage, env: Environment)
    ensures forall k :: k != id ==> (k in LoggedRows(rows, id, msg, env) <==> k in rows)
    ensures forall k :: k != id && k in rows ==> LoggedRows(rows, id, msg, env)[k] == rows[k]
  {
  }

  lemma OverwriteTwice(rows: map<nat, LogEntry>, id: nat, first: LogEntry, second: LogEntry)
    ensures rows[id := first][id := second] == rows[id := second]
  {
  }

  /** The webhook's request handler. */
  method HandleRequest(store: LogStore, req: Request, env: Environment) returns (resp: HttpResponse)
    requires store.Valid()
    modifies store
    ensures store.Valid()
    ensures req.httpMethod == "OPTIONS" ==> resp == PreflightResponse() && store.rows == old(store.rows)
    ensures req.httpMethod != "OPTIONS" && req.payload.Unreadable? ==>
      resp == ErrorResponse(ErrorMessage(req.payload.thrown)) && store.rows == old(store.rows)
    ensures req.httpMethod != "OPTIONS" && req.payload.Form? ==>
      var msg := ReadMessage(req.payload.fields);
      resp == TwimlResponse(Dispatch(Parse(msg.body), env.summarise).reply) &&
      store.rows == LoggedRows(old(store.rows), old(store.nextId), msg, env)
  {
    if req.httpMethod == "OPTIONS" {
      return PreflightResponse();
    }
    match req.payload
    case Unreadable(t) =>
      resp := ErrorResponse(ErrorMessage(t));
    case Form(fields) =>
      var response := ProcessMessage(store, ReadMessage(fields), env);
      resp := TwimlResponse(response);
  }
}
