/** Helpers shared by every module. */
module Common {

  datatype Option<+T> = None | Some(value: T) {
    function GetOr(default: T): T {
      if Some? then value else default
    }
  }

  function Lookup<K, V>(m: map<K, V>, k: K): Option<V> {
    if k in m then Some(m[k]) else None
  }

  /** Concatenation of the texts with the separator between them (strings.Join). */
  function Join(texts: seq<string>, separator: string): string {
    if |texts| == 0 then ""
    else if |texts| == 1 then texts[0]
    else texts[0] + separator + Join(texts[1..], separator)
  }

  /** The pieces of `text` between occurrences of `separator` (strings.Split with a one-character separator). */
  function Split(text: string, separator: char): (pieces: seq<string>)
    ensures |pieces| >= 1
  {
    if |text| == 0 then [""]
    else
      var rest := Split(text[1..], separator);
      if text[0] == separator then [""] + rest else [[text[0]] + rest[0]] + rest[1..]
  }

  /** A text without the separator splits off as the first piece. */
  lemma {:induction false} SplitAfterPiece(piece: string, rest: string, separator: char)
    requires separator !in piece
    ensures Split(piece, separator) == [piece]
    ensures Split(piece + [separator] + rest, separator) == [piece] + Split(rest, separator)
  {
    if |piece| == 0 {
      assert piece + [separator] + rest == [separator] + rest;
    } else {
      SplitAfterPiece(piece[1..], rest, separator);
      assert [piece[0]] + piece[1..] == piece;
      assert (piece + [separator] + rest)[1..] == piece[1..] + [separator] + rest;
    }
  }

  /** Splitting what was joined gives the pieces back. */
  lemma {:induction false} SplitJoin(texts: seq<string>, separator: char)
    requires |texts| > 0
    requires forall i :: 0 <= i < |texts| ==> separator !in texts[i]
    ensures Split(Join(texts, [separator]), separator) == texts
  {
    if |texts| == 1 {
      SplitAfterPiece(texts[0], "", separator);
    } else {
      SplitJoin(texts[1..], separator);
      SplitAfterPiece(texts[0], Join(texts[1..], [separator]), separator);
    }
  }
}
