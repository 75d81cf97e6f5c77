/**
 * The tail every operation shares: read the body, look for a business
 * error in it, then look at the status code.
 */
module Responses {
  import opened Wrappers
  import opened Api
  import opened Http
  import Decimal
  import Strings

  /** WeiboErrorInfo after json.Unmarshal: a field the body lacks keeps its zero value. */
  datatype ErrorInfo = ErrorInfo(errorCode: int64, error: string)

  datatype Error =
    | Transport                               // http.Get, http.Post or Client.Do failed
    | ReadFailure                             // ioutil.ReadAll failed
    | Encoding                                // url.Parse or http.NewRequest refused the URL
    | Business(code: int64, message: string)  // from ParseErrMsg
    | HttpStatus(status: int)                 // status other than 200

  /** What an operation returns: Go's (r string, err error) pair. */
  datatype Reply = Reply(r: string, err: Option<Error>)

  function Failure(e: Error): Reply {
    Reply("", Some(e))
  }

  /**
   * ParseErrMsg: the body holds a business error exactly when it decodes and
   * its error_code is not 0. `unmarshal` stands for json.Unmarshal.
   */
  function ParseErrMsg(unmarshal: string -> Option<ErrorInfo>, body: string): (e: Option<Error>)
    ensures e.Some? <==> unmarshal(body).Some? && unmarshal(body).value.errorCode != 0
    ensures e.Some? ==> e.value == Business(unmarshal(body).value.errorCode, unmarshal(body).value.error)
  {
    match unmarshal(body)
    case Some(info) => if info.errorCode != 0 then Some(Business(info.errorCode, info.error)) else None
    case None => None
  }

  /**
   * The checks each operation applies to the response, in the order it
   * applies them. The call succeeds exactly when the body was read, holds no
   * business error and came with status 200, and then returns that body; a
   * failure always returns the empty string, and is never a transport or
   * URL error, which arise before there is a response.
   */
  function Normalize(unmarshal: string -> Option<ErrorInfo>, resp: Response): (reply: Reply)
    ensures reply.err.None? <==>
      resp.body.Some? && ParseErrMsg(unmarshal, resp.body.value).None? && resp.status == 200
    ensures reply.err.None? ==> reply.r == resp.body.value
    ensures reply.err.Some? ==> reply.r == ""
    ensures reply.err != Some(Transport) && reply.err != Some(Encoding)
  {
    match resp.body
    case None => Failure(ReadFailure)
    case Some(body) =>
      match ParseErrMsg(unmarshal, body)
      case Some(e) => Failure(e)
      case None => if resp.status != 200 then Failure(HttpStatus(resp.status)) else Reply(body, None)
  }

  /** A failed read is an error whatever the status. */
  lemma ReadFailureFails(unmarshal: string -> Option<ErrorInfo>, status: int)
    ensures Normalize(unmarshal, Response(status, None)) == Failure(ReadFailure)
  {
  }

  /** A business error wins over any status code, 200 included, and the body is not returned. */
  lemma BusinessErrorPrecedence(unmarshal: string -> Option<ErrorInfo>, status: int, body: string)
    requires unmarshal(body).Some? && unmarshal(body).value.errorCode != 0
    ensures Normalize(unmarshal, Response(status, Some(body)))
         == Failure(Business(unmarshal(body).value.errorCode, unmarshal(body).value.error))
  {
  }

  /**
   * With no business error the status alone decides: success exactly on 200,
   * with the body verbatim; otherwise the status error and an empty result.
   */
  lemma StatusDecides(unmarshal: string -> Option<ErrorInfo>, status: int, body: string)
    requires ParseErrMsg(unmarshal, body).None?
    ensures var reply := Normalize(unmarshal, Response(status, Some(body)));
      && (reply.err.None? <==> status == 200)
      && (status == 200 ==> reply.r == body)
      && (status != 200 ==> reply == Failure(HttpStatus(status)))
  {
  }

  const StatusPrefix: string := "Http Status Code: "

  /**
   * The text of the errors this file formats itself: "%v: %v" for a
   * business error, "Http Status Code: %v" for a status. The others carry
   * the text of a Go library error.
   */
  function Text(e: Error): (t: Option<string>)
    ensures t.Some? <==> e.Business? || e.HttpStatus?
    ensures e.HttpStatus? ==> |t.value| > |StatusPrefix| && t.value[..|StatusPrefix|] == StatusPrefix
    ensures e.HttpStatus? ==> t.value[|StatusPrefix|..] == Decimal.IntText(e.status)
    ensures e.Business? ==>
      && Strings.IndexOf(t.value, ':') == |Decimal.IntText(e.code as int)|
      && t.value[|Decimal.IntText(e.code as int)|..] == ": " + e.message
  {
    match e
    case Business(code, message) =>
      var digits := Decimal.IntText(code as int);
      Decimal.IntTextNoDelimiter(code as int);
      Strings.IndexOfAfter(digits, ':', " " + message);
      assert digits + ": " + message == digits + [':'] + (" " + message);
      Some(digits + ": " + message)
    case HttpStatus(code) => Some(StatusPrefix + Decimal.IntText(code))
    case _ => None
  }

  /** The status a "Http Status Code: N" text names. */
  function StatusOf(t: string): Option<int> {
    if |t| > |StatusPrefix| && t[..|StatusPrefix|] == StatusPrefix && Decimal.IsIntText(t[|StatusPrefix|..])
    then Some(Decimal.IntValue(t[|StatusPrefix|..]))
    else None
  }

  /** The code and message a "%v: %v" business error text holds. */
  function BusinessOf(t: string): Option<(int, string)> {
    var i := Strings.IndexOf(t, ':');
    if i + 1 < |t| && t[i + 1] == ' ' && Decimal.IsIntText(t[..i])
    then Some((Decimal.IntValue(t[..i]), t[i + 2..]))
    else None
  }

  /** The status code can be read back from the text of a status error. */
  lemma StatusTextCarriesCode(code: int)
    ensures StatusOf(Text(HttpStatus(code)).value) == Some(code)
  {
    var t := Text(HttpStatus(code)).value;
    assert t[|StatusPrefix|..] == Decimal.IntText(code);
    Decimal.IntTextRoundTrip(code);
  }

  /**
   * Code and message can be read back from the text of a business error,
   * whatever the message holds (colons included).
   */
  lemma BusinessTextCarriesCodeAndMessage(code: int64, message: string)
    ensures BusinessOf(Text(Business(code, message)).value) == Some((code as int, message))
  {
    var digits := Decimal.IntText(code as int);
    var t := Text(Business(code, message)).value;
    assert t == digits + [':'] + (" " + message);
    Strings.IndexOfAfter(digits, ':', " " + message);
    var i := Strings.IndexOf(t, ':');
    assert t[..i] == digits;
    assert t[i + 2..] == message;
    Decimal.IntTextRoundTrip(code as int);
  }

  /** A status error and a business error never read the same. */
  lemma ErrorTextsDiffer(status: int, code: int64, message: string)
    ensures Text(HttpStatus(status)) != Text(Business(code, message))
  {
    var digits := Decimal.IntText(code as int);
    assert Text(Business(code, message)).value[0] == digits[0];
    assert Text(HttpStatus(status)).value[0] == 'H';
  }
}
