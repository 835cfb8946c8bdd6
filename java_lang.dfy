/**
  The few pieces of Java semantics the wizard code relies on: nullable
  references, thrown exceptions, string conversion of null, the
  `Strings.isNullOrBlank` helper and joining strings with a separator.
 */
module JavaLang {

  /** A possibly-null reference: None is Java's null. */
  datatype Option<+T> = None | Some(value: T)

  /** The exceptions the modelled code can raise. */
  datatype JavaException =
    | NullPointerException
    | ClassCastException
    | Raised(message: string)   // an exception from a collaborator, surfaced unmodified

  /** A call that either returns a value or throws. */
  datatype Outcome<+T> = Returned(value: T) | Threw(exception: JavaException)

  /** `String.valueOf` / string concatenation of a possibly-null string. */
  function ValueOf(s: Option<string>): string
  {
    if s.Some? then s.value else "null"
  }

  /** `Strings.isNullOrBlank`: null, or nothing left after `trim()`,
      which strips every character up to U+0020. */
  predicate IsNullOrBlank(s: Option<string>)
  {
    s.None? || forall i :: 0 <= i < |s.value| ==> s.value[i] <= ' '
  }

  /** The parts joined with `sep` between consecutive parts. */
  function Join(parts: seq<string>, sep: string): string
  {
    if |parts| == 0 then ""
    else if |parts| == 1 then parts[0]
    else Join(parts[..|parts| - 1], sep) + sep + parts[|parts| - 1]
  }

  /** Σ |parts[i]| */
  function TotalLength(parts: seq<string>): nat
  {
    if |parts| == 0 then 0 else TotalLength(parts[..|parts| - 1]) + |parts[|parts| - 1]|
  }

  lemma {:induction false} JoinLength(parts: seq<string>, sep: string)
    requires |parts| > 0
    ensures |Join(parts, sep)| == TotalLength(parts) + (|parts| - 1) * |sep|
  {
    if |parts| > 1 {
      var init := parts[..|parts| - 1];
      JoinLength(init, sep);
      var k := |init| - 1;
      assert |Join(parts, sep)| == TotalLength(init) + k * |sep| + |sep| + |parts[|parts| - 1]|;
      assert k * |sep| + |sep| == (k + 1) * |sep|;
    }
  }

  /** Joining one more part appends the separator and the part. */
  lemma JoinSnoc(parts: seq<string>, sep: string, last: string)
    requires |parts| > 0
    ensures Join(parts + [last], sep) == Join(parts, sep) + sep + last
  {
    assert (parts + [last])[..|parts|] == parts;
  }
}
