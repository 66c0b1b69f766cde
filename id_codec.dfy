/**
 * The `Id` codec: a string identifier that is stored trimmed and is never
 * blank, and the equality that compares records by their `id`.
 */
module IdCodec {
  import opened Wrappers

  /**
   * The characters `String.prototype.trim` removes: ECMAScript WhiteSpace
   * (tab, vertical tab, form feed, byte-order mark and every space
   * separator) and LineTerminator (line feed, carriage return, line and
   * paragraph separators).
   */
  const Whitespace: set<char> := {
    '\t', '\n', '\U{B}', '\U{C}', '\r', ' ', '\U{A0}', '\U{1680}',
    '\U{2000}', '\U{2001}', '\U{2002}', '\U{2003}', '\U{2004}', '\U{2005}',
    '\U{2006}', '\U{2007}', '\U{2008}', '\U{2009}', '\U{200A}',
    '\U{2028}', '\U{2029}', '\U{202F}', '\U{205F}', '\U{3000}', '\U{FEFF}'
  }

  predicate IsWhitespace(c: char)
  {
    c in Whitespace
  }

  predicate AllWhitespace(s: string)
  {
    forall k :: 0 <= k < |s| ==> IsWhitespace(s[k])
  }

  /** The index of the first non-blank at or after `from`, or |s| when there is none. */
  function FirstNonBlank(s: string, from: nat): (n: nat)
    requires from <= |s|
    ensures from <= n <= |s|
    ensures forall k :: from <= k < n ==> IsWhitespace(s[k])
    ensures n == |s| || !IsWhitespace(s[n])
    decreases |s| - from
  {
    if from < |s| && IsWhitespace(s[from]) then FirstNonBlank(s, from + 1) else from
  }

  /** The end of the last non-blank in s[lo..hi], or lo when there is none. */
  function EndOfLastNonBlank(s: string, lo: nat, hi: nat): (n: nat)
    requires lo <= hi <= |s|
    ensures lo <= n <= hi
    ensures forall k :: n <= k < hi ==> IsWhitespace(s[k])
    ensures n == lo || !IsWhitespace(s[n - 1])
    decreases hi
  {
    if lo < hi && IsWhitespace(s[hi - 1]) then EndOfLastNonBlank(s, lo, hi - 1) else hi
  }

  /** `str.trim()`: strips leading and trailing whitespace. */
  function Trim(s: string): string
  {
    var i := FirstNonBlank(s, 0);
    s[i..EndOfLastNonBlank(s, i, |s|)]
  }

  /**
   * Trim keeps a contiguous middle part of the string, everything cut away
   * on either side is whitespace, and what is kept neither starts nor ends
   * with whitespace.
   */
  lemma TrimKeepsMiddle(s: string) returns (i: nat, j: nat)
    ensures i <= j <= |s| && Trim(s) == s[i..j]
    ensures AllWhitespace(s[..i]) && AllWhitespace(s[j..])
    ensures Trim(s) == [] || (!IsWhitespace(Trim(s)[0]) && !IsWhitespace(Trim(s)[|Trim(s)| - 1]))
  {
    i := FirstNonBlank(s, 0);
    j := EndOfLastNonBlank(s, i, |s|);
    assert forall k :: 0 <= k < i ==> s[..i][k] == s[k];
    assert forall k :: 0 <= k < |s| - j ==> s[j..][k] == s[j + k];
  }

  /** A string trims to nothing exactly when it is all whitespace. */
  lemma TrimEmptyIffBlank(s: string)
    ensures Trim(s) == [] <==> AllWhitespace(s)
  {
    var i := FirstNonBlank(s, 0);
    var j := EndOfLastNonBlank(s, i, |s|);
    if AllWhitespace(s) {
      assert i == |s|;
    }
  }

  /** Trimming a trimmed string changes nothing. */
  lemma TrimIdempotent(s: string)
    ensures Trim(Trim(s)) == Trim(s)
  {
    var r := Trim(s);
    var i, j := TrimKeepsMiddle(s);
    if r != [] {
      assert FirstNonBlank(r, 0) == 0;
      assert EndOfLastNonBlank(r, 0, |r|) == |r|;
      assert r[0..|r|] == r;
    }
  }

  /** A JavaScript value handed to the codec: a string, or anything else. */
  datatype Input = JsString(str: string) | NotAString

  /** One io-ts validation error: the offending value and where it was met. */
  datatype ValidationError = ValidationError(value: Input, context: seq<string>)

  /** The type guard `Id.is`. */
  predicate Is(input: Input)
  {
    input.JsString? && |Trim(input.str)| > 0
  }

  /**
   * `Id.validate`: a string whose trimmed form is not empty decodes to that
   * trimmed form; anything else fails with one error carrying the input.
   */
  function Validate(input: Input, context: seq<string>): (r: Either<seq<ValidationError>, string>)
    ensures r.Right? <==> Is(input)
    ensures r.Right? ==> r.right == Trim(input.str) && r.right != []
    ensures r.Left? ==> r.left == [ValidationError(input, context)]
  {
    match input
    case NotAString => Left([ValidationError(input, context)])
    case JsString(str) =>
      var trimmed := Trim(str);
      if |trimmed| > 0 then Right(trimmed) else Left([ValidationError(JsString(str), context)])
  }

  /** `Id.encode` is the identity. */
  function Encode(id: string): (r: string)
  {
    id
  }

  /** A decoded id has no surrounding whitespace, so it decodes to itself. */
  lemma DecodeIsIdempotent(input: Input, context: seq<string>, context': seq<string>)
    requires Validate(input, context).Right?
    ensures Validate(JsString(Validate(input, context).right), context') == Validate(input, context)
  {
    TrimIdempotent(input.str);
  }

  /** Encoding a decoded id and decoding it again gives back the same id. */
  lemma EncodeThenDecode(input: Input, context: seq<string>, context': seq<string>)
    requires Validate(input, context).Right?
    ensures Validate(JsString(Encode(Validate(input, context).right)), context') == Validate(input, context)
  {
    DecodeIsIdempotent(input, context, context');
  }

  /** An empty or whitespace-only string is rejected. */
  lemma BlankIsRejected(s: string, context: seq<string>)
    requires AllWhitespace(s)
    ensures Validate(JsString(s), context) == Left([ValidationError(JsString(s), context)])
  {
    TrimEmptyIffBlank(s);
  }

  /** fp-ts `Eq`: an equality on values of type T. */
  datatype Eq<!T> = Eq(equals: (T, T) -> bool)

  /** String equality, `===`. */
  function StringEq(): Eq<string>
  {
    Eq((x: string, y: string) => x == y)
  }

  /** `Eq.contramap(f)`: compare two values by comparing their images under f. */
  function Contramap<A, B>(eq: Eq<A>, f: B -> A): Eq<B>
  {
    Eq((x: B, y: B) => eq.equals(f(x), f(y)))
  }

  /** `makeEqById`: string equality pulled back through each record's `id`. */
  function MakeEqById<T>(idOf: T -> string): Eq<T>
  {
    Contramap(StringEq(), idOf)
  }

  /**
   * Two records are equal under `makeEqById` exactly when their ids are equal,
   * whatever else they hold; so the relation is an equivalence.
   */
  lemma EqByIdComparesIds<T>(idOf: T -> string, x: T, y: T, z: T)
    ensures MakeEqById(idOf).equals(x, y) <==> idOf(x) == idOf(y)
    ensures MakeEqById(idOf).equals(x, x)
    ensures MakeEqById(idOf).equals(x, y) ==> MakeEqById(idOf).equals(y, x)
    ensures MakeEqById(idOf).equals(x, y) && MakeEqById(idOf).equals(y, z) ==> MakeEqById(idOf).equals(x, z)
  {
  }
}
