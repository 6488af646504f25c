/** Outcome types shared by the whole model: an optional value (Python's
    `None`-or-value) and the result of a call that may raise. */
module Common {

  datatype Option<+T> = None | Some(value: T) {
    function GetOr(default: T): T {
      match this
      case Some(v) => v
      case None => default
    }
  }

  /** An optional string that is present and non-empty, as Python's
      truthiness tests it. */
  predicate Given(o: Option<string>) {
    o.Some? && o.value != ""
  }

  /** The Python exception classes raised by the modelled code. */
  datatype ExcKind = ValueError | RuntimeError | AttributeError | TypeError | KeyError | IndexError | UnboundLocalError

  /** A raised exception: its class and its message text. */
  datatype Exc = Exc(kind: ExcKind, message: string)

  /** Either the value a call returns or the exception it raises. */
  datatype Result<+T> = Ok(value: T) | Raise(exc: Exc)

  // Small sequence facts, stated once so that larger proofs cite them
  // instead of asking the solver for extensionality in a crowded context.

  /** A non-empty list is its front followed by its last element. */
  lemma InitLast<T>(xs: seq<T>)
    requires xs != []
    ensures xs == xs[..|xs| - 1] + [xs[|xs| - 1]]
  {
  }

  lemma Assoc<T>(a: seq<T>, b: seq<T>, c: seq<T>)
    ensures (a + b) + c == a + (b + c)
  {
  }

  /** A suffix is a slice followed by the rest. */
  lemma SuffixSplit<T>(s: seq<T>, a: nat, b: nat)
    requires a <= b <= |s|
    ensures s[a..] == s[a..b] + s[b..]
  {}

  /** Growing a slice by one element. */
  lemma SliceSnoc<T>(s: seq<T>, lo: nat, i: nat)
    requires lo <= i < |s|
    ensures s[lo..i + 1] == s[lo..i] + [s[i]]
  {
  }
}
