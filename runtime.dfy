/**
 * The small part of the Python runtime the scripts lean on: the exceptions they
 * raise (or let escape), a Result that carries either a value or one of them, and
 * the two shapes of value that end up in the command dictionaries (a string, or a
 * list of strings).
 */
module Runtime {

  /** Exceptions raised by the modelled code, by their Python class. */
  datatype Error =
    | IndexError                 // list index out of range
    | KeyError(key: string)      // missing dictionary key
    | ValueError                 // unparseable line, invalid calendar date, mis-aligned packages
    | StopIteration              // next() on an exhausted iterator
    | AttributeError             // a str where a list or dict was expected
    | TypeError                  // subscripting the ('invalid', args) tuple with a string
    | AssertionError             // a failed assert statement
    | IOError(stderr: string)    // the environment query wrote to its error stream
    | FileNotFoundError(path: string)

  /** A value, or the exception that ended the computation. Usable with `:-`. */
  datatype Result<+T> = Ok(value: T) | Err(error: Error) {
    predicate IsFailure() { Err? }

    function PropagateFailure<U>(): Result<U>
      requires Err?
    {
      Err(error)
    }

    function Extract(): T
      requires Ok?
    {
      value
    }
  }

  datatype Option<+T> = None | Some(value: T) {
    function GetOr(default: T): T {
      match this
      case Some(v) => v
      case None => default
    }
  }

  /** A dictionary value that is either a str or a list of str. */
  datatype Value = Str(text: string) | List(items: seq<string>)

  /** What `for d in v` visits: the items of a list, the one-character strings of a str. */
  function Elements(v: Value): (r: seq<string>)
    ensures v.List? ==> r == v.items
    ensures v.Str? ==> |r| == |v.text| && forall i :: 0 <= i < |r| ==> r[i] == [v.text[i]]
  {
    match v
    case List(items) => items
    case Str(s) => seq(|s|, i requires 0 <= i < |s| => [s[i]])
  }
}
