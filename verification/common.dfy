/** Types shared by the whole model: bytes, optional values and the Java throwables the core raises or passes on. */
module Common {

  /** An unsigned byte, the unit of everything written to the redirected System.out. */
  newtype byte = x: int | 0 <= x < 256

  /** A value that may be Java's `null`. */
  datatype Option<+T> = None | Some(value: T) {
    function GetOr(default: T): T {
      match this
      case Some(v) => v
      case None => default
    }
  }

  /** The throwables of the core, plus the ones a test child raises on its own. */
  datatype Throwable =
    | UnsupportedOperation(message: string)  // a listener call on the recorder
    | IllegalState(message: string)          // replayEvent's default branch
    | IndexOutOfBounds                        // ByteArrayOutputStream.write(b, off, len) with a bad range
    | NullPointer                             // unboxing the null that Map.get returns for an unknown key
    | ClassNotFound(name: string)             // findClass on a name not on the class path
    | ChildRuntimeException(id: nat)          // any other RuntimeException escaping runner.run
    | ChildError(id: nat)                     // a java.lang.Error, or a checked exception, escaping runner.run
  {
    /** True for the throwables runChild's `catch (RuntimeException e)` catches: not an Error, and
        not ClassNotFoundException, which is a checked exception. */
    predicate IsRuntime() {
      !ChildError? && !ClassNotFound?
    }
  }

  /** The value of a Java call that either returns or throws. */
  datatype Result<+T> = Success(value: T) | Failure(error: Throwable)

  lemma Associative<T>(a: seq<T>, b: seq<T>, c: seq<T>)
    ensures (a + b) + c == a + (b + c)
  {
  }
}
