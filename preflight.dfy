/**
 * core/crates/io/src/preflight.rs: cheap limits checked before an import is
 * parsed.  The input's byte length and an estimate of its entity count (one
 * per line break plus one per opening brace) must stay within the import
 * options' limits; reaching a limit exactly is allowed.
 */
module Preflight {
  import opened Wrappers

  type Byte = bv8

  /** The import options (core/crates/io/src/options.rs); only the two limits are read here. */
  datatype ImportOptions = ImportOptions(
    maxBytes: nat, maxEntities: nat, maxNestingDepth: nat, allowUnitGuess: bool, approxEpsilon: real, seed: nat)

  const DEFAULT_IMPORT_OPTIONS := ImportOptions(8 * 1024 * 1024, 100_000, 64, true, 0.01, 0)

  const IO_LIMIT := "IO_LIMIT_016"

  /** Both limit failures carry the code IO_LIMIT_016; the message names the measured value and the limit. */
  datatype LimitError = TooManyBytes(len: nat, maxBytes: nat) | TooManyEntities(estimated: nat, maxEntities: nat)

  function Code(e: LimitError): string { IO_LIMIT }

  function CheckBytesLen(bytes: seq<Byte>, opts: ImportOptions): (r: Result<(), LimitError>)
    ensures r.Ok? <==> |bytes| <= opts.maxBytes
    ensures r.Err? ==> r.error == TooManyBytes(|bytes|, opts.maxBytes)
  {
    if |bytes| > opts.maxBytes then Err(TooManyBytes(|bytes|, opts.maxBytes)) else Ok(())
  }

  /** The number of times `c` occurs in `text`. */
  function Occurrences(text: string, c: char): nat
  {
    if text == [] then 0 else Occurrences(text[..|text| - 1], c) + (if text[|text| - 1] == c then 1 else 0)
  }

  function EstimateEntityCount(text: string): nat
  {
    Occurrences(text, '\n') + Occurrences(text, '{')
  }

  /** The estimate adds up over concatenated text. */
  lemma EstimateAdditive(a: string, b: string)
    ensures EstimateEntityCount(a + b) == EstimateEntityCount(a) + EstimateEntityCount(b)
  {
    OccurrencesAppend(a, b, '\n');
    OccurrencesAppend(a, b, '{');
  }

  lemma {:induction false} OccurrencesAppend(a: string, b: string, c: char)
    ensures Occurrences(a + b, c) == Occurrences(a, c) + Occurrences(b, c)
    decreases |b|
  {
    if b != [] {
      var b0 := b[..|b| - 1];
      assert (a + b)[..|a + b| - 1] == a + b0;
      OccurrencesAppend(a, b0, c);
    } else {
      assert a + b == a;
    }
  }

  /** The estimate never exceeds the text's length: each character is a line break, a brace or neither. */
  lemma {:induction false} EstimateBounded(a: string)
    ensures EstimateEntityCount(a) <= |a|
    decreases |a|
  {
    if a != [] {
      EstimateBounded(a[..|a| - 1]);
    }
  }

  /** The byte length is checked first; only input within it has its entity estimate checked. */
  function CheckLimits(bytes: seq<Byte>, estimatedEntities: nat, opts: ImportOptions): (r: Result<(), LimitError>)
    ensures r.Ok? <==> |bytes| <= opts.maxBytes && estimatedEntities <= opts.maxEntities
    ensures |bytes| > opts.maxBytes ==> r == Err(TooManyBytes(|bytes|, opts.maxBytes))
    ensures |bytes| <= opts.maxBytes && estimatedEntities > opts.maxEntities ==>
      r == Err(TooManyEntities(estimatedEntities, opts.maxEntities))
  {
    var _ :- CheckBytesLen(bytes, opts);
    if estimatedEntities > opts.maxEntities then Err(TooManyEntities(estimatedEntities, opts.maxEntities))
    else Ok(())
  }
}
