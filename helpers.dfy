/** The two free functions of series.py: the permissive scalar conversion
    applied to every collected value, and the name shortening used by every
    report row. */
module Helpers {

  /** What `collect` may be handed. `Number` is anything `float()` accepts
      (a float, an int, a numeric string, or the first element of a
      `FloatTensor`/`Variable`), carrying the value it converts to; `Other` is
      anything `float()` rejects. */
  datatype Input = Number(value: real) | Other

  /** `convert_to_scalar`: the numeric value, or 0 when conversion fails.
      No input of the `Number`/`Other` domain raises, so it has no
      precondition and no error result. */
  function ConvertToScalar(x: Input): (r: real)
    ensures x.Number? ==> r == x.value
    ensures x.Other? ==> r == 0.0
  {
    match x
    case Number(v) => v
    case Other => 0.0
  }

  /** Names longer than this are shortened. */
  const ShortenAbove: nat := 27
  /** Characters kept from the front and the back of a long name. */
  const KeepHead: nat := 20
  const KeepTail: nat := 9
  const Ellipsis: string := "..."

  /** `shorten(words, maxlen)`. The `maxlen` argument (30 by default) is
      accepted and ignored, exactly as in the source. */
  function Shorten(words: string, maxlen: int := 30): (r: string)
  {
    if |words| > ShortenAbove then
      words[..KeepHead] + Ellipsis + words[|words| - KeepTail..]
    else
      words
  }

  /** A name of at most 27 characters is kept; a longer one becomes its first
      20 characters, the ellipsis and its last 9 characters. */
  lemma ShortenShape(words: string, maxlen: int)
    ensures var r := Shorten(words, maxlen);
            && (|words| <= ShortenAbove ==> r == words)
            && (|words| > ShortenAbove ==>
                  && |r| == KeepHead + |Ellipsis| + KeepTail
                  && r[..KeepHead] == words[..KeepHead]
                  && r[KeepHead..KeepHead + |Ellipsis|] == Ellipsis
                  && r[KeepHead + |Ellipsis|..] == words[|words| - KeepTail..])
  {
    if |words| > ShortenAbove {
      var r := Shorten(words, maxlen);
      assert r == words[..KeepHead] + Ellipsis + words[|words| - KeepTail..];
    }
  }

  /** A shortened name is 32 characters long; a name that is kept is at most
      27: so no result is 28 to 31 characters long. */
  lemma ShortenLength(words: string, maxlen: int)
    ensures |Shorten(words, maxlen)| <= ShortenAbove || |Shorten(words, maxlen)| == 32
  {
  }

  /** Shortening twice is shortening once: a 32-character result is cut
      again at the same places, which gives it back unchanged. */
  lemma ShortenIdempotent(words: string, maxlen: int, maxlen': int)
    ensures Shorten(Shorten(words, maxlen), maxlen') == Shorten(words, maxlen)
  {
    var r := Shorten(words, maxlen);
    if |words| > ShortenAbove {
      assert r[..KeepHead] + Ellipsis + r[|r| - KeepTail..] == r by {
        assert r == r[..KeepHead] + r[KeepHead..KeepHead + |Ellipsis|] + r[KeepHead + |Ellipsis|..];
      }
    }
  }

  /** The `maxlen` argument never changes the result. */
  lemma ShortenIgnoresMaxlen(words: string, maxlen: int, maxlen': int)
    ensures Shorten(words, maxlen) == Shorten(words, maxlen')
  {
  }
}
