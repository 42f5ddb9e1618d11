/**
 * JsonException and the other ways a handler or a middleware can end.
 *
 * A JsonException carries the whole reply a handler wants sent back. Its
 * payload is a private array set once by the constructor and read by its
 * getter; there is no setter, so as a datatype value it never changes.
 * The parent Exception is built with no arguments, so the exception's own
 * message is empty and its code is 0: the protocol code and message live
 * only in the payload.
 */
module Exceptions {
  import opened PhpValues

  datatype JsonException = JsonException(data: seq<Entry>) {
    /** `getData()`. */
    function GetData(): seq<Entry> {
      data
    }

    /** `getMessage()`, inherited from Exception constructed without arguments. */
    function GetMessage(): string {
      ""
    }

    /** `getCode()`, inherited from Exception constructed without arguments. */
    function GetCode(): int {
      0
    }
  }

  /** `new JsonException()`: the payload defaults to the empty array. */
  function NewJsonException(): (e: JsonException)
    ensures e.GetData() == [] && e.GetMessage() == "" && e.GetCode() == 0
  {
    JsonException([])
  }

  lemma GetDataIsPayload(data: seq<Entry>)
    ensures JsonException(data).GetData() == data
    ensures JsonException(data).GetMessage() == "" && JsonException(data).GetCode() == 0
  {
  }

  /**
   * What running a handler or a middleware does: return a value, or throw
   * one of the exceptions the server tells apart (a JsonException, an
   * ArgumentCountError, a TypeError, or any other Throwable).
   */
  datatype Outcome =
    | Ok(result: Value)
    | JsonErr(exception: JsonException)
    | ArgCountErr(message: string)
    | TypeErr(message: string)
    | OtherErr(message: string)
}
