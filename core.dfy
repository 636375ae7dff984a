/**
 * NngException, its message format, AssertZero, and the IsValid extension
 * methods of nng.NET.Shared/Core.cs.
 */
module Core {
  import opened Results

  /** The result code of a successful nng call. */
  const NNG_OK: int := 0

  /** nng's error-number enum. Casting between it and int keeps the underlying value. */
  newtype NngErrno = int

  /** What the enum's ToString() gives for each error number. */
  type ErrnoNames = NngErrno -> string

  /** An NngException: the error code it was built with and its message text. */
  datatype NngException = NngException(errorCode: int, text: string) {
    /** The Error property: the error code read as an NngErrno. */
    function Error(): (e: NngErrno)
      ensures e as int == errorCode
    {
      errorCode as NngErrno
    }
  }

  /** A value, or the error number of the nng call that failed to produce it. */
  datatype NngResult<T> = Ok(value: T) | Fail(error: NngErrno)

  /** A call that returns normally, or throws an NngException. */
  datatype Outcome = Pass | Throw(exception: NngException)

  /** A message argument counts as missing when it is null or empty. */
  predicate IsNullOrEmpty(message: Option<string>) {
    message == None || message == Some("")
  }

  /**
   * The exception text: the errno name alone when there is no message,
   * and otherwise the errno name, a colon and a space, then the message.
   */
  function MessageFormat(names: ErrnoNames, errorCode: int, message: Option<string>): (s: string)
    ensures IsNullOrEmpty(message) ==> s == names(errorCode as NngErrno)
    ensures !IsNullOrEmpty(message) ==> s == names(errorCode as NngErrno) + ": " + message.value
  {
    if IsNullOrEmpty(message) then names(errorCode as NngErrno)
    else names(errorCode as NngErrno) + ": " + message.value
  }

  /** The exception text starts with the errno name, and a given message can be read back from it. */
  lemma MessageFormatRecoversMessage(names: ErrnoNames, errorCode: int, message: Option<string>)
    ensures var s := MessageFormat(names, errorCode, message);
            var name := names(errorCode as NngErrno);
            && name <= s
            && (s == name <==> IsNullOrEmpty(message))
            && (!IsNullOrEmpty(message) ==> s[|name| + 2..] == message.value)
  {

  }

  /** The int constructor of NngException; the message defaults to "". */
  function NewException(names: ErrnoNames, errorCode: int, message: Option<string> := Some("")): (e: NngException)
    ensures e.errorCode == errorCode && e.Error() == errorCode as NngErrno
    ensures e.text == MessageFormat(names, errorCode, message)
  {
    NngException(errorCode, MessageFormat(names, errorCode, message))
  }

  /** The NngErrno constructor: it delegates to the int constructor on the errno's value. */
  function NewExceptionFromErrno(names: ErrnoNames, errno: NngErrno, message: Option<string> := Some("")): (e: NngException)
    ensures e == NewException(names, errno as int, message)
    ensures e.Error() == errno
  {
    NewException(names, errno as int, message)
  }

  /** AssertZero: throws if and only if the code is not NNG_OK, with an exception carrying that code. */
  function AssertZero(names: ErrnoNames, errorCode: int, message: Option<string> := Some("")): (o: Outcome)
    ensures o.Pass? <==> errorCode == NNG_OK
    ensures o.Throw? ==> o.exception.errorCode == errorCode
    ensures o.Throw? ==> o.exception == NewException(names, errorCode, message)
  {
    if errorCode != NNG_OK then Throw(NewException(names, errorCode, message)) else Pass
  }

  /** nng_socket: the native socket handle a listener or dialer is created on. */
  datatype SocketHandle = SocketHandle(id: int)

  /** The four kinds of nng object the IsValid extension methods apply to, each with its Id. */
  datatype NngObject = Socket(id: int) | Listener(id: int) | Dialer(id: int) | Pipe(id: int)

  /** IsValid: the object's Id is not -1, whatever kind of object it is. */
  predicate IsValid(o: NngObject)
    ensures IsValid(o) <==> o.id != -1
  {
    o.id != -1
  }
}
