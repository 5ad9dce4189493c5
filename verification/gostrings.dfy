/**
 * The parts of Go's `strings` package that the modelled code relies on:
 * `strings.Split` with a one-character separator, `strings.Join`,
 * `strings.ToLower` and `strings.Builder`.
 */
module GoStrings {

  /** `strings.Join(xs, sep)`: the pieces with `sep` between neighbours. */
  function Join(xs: seq<string>, sep: string): string
  {
    if |xs| == 0 then ""
    else if |xs| == 1 then xs[0]
    else xs[0] + sep + Join(xs[1..], sep)
  }

  /**
   * `strings.Split(s, [sep])`: the maximal pieces of `s` that do not contain `sep`.
   * Splitting never yields an empty list (the empty string gives `[""]`) and no
   * piece contains the separator; `JoinOfSplit` shows nothing is lost.
   */
  function Split(s: string, sep: char): (pieces: seq<string>)
    ensures |pieces| >= 1
    ensures forall i :: 0 <= i < |pieces| ==> sep !in pieces[i]
  {
    if s == [] then [""]
    else
      var rest := Split(s[1..], sep);
      if s[0] == sep then [""] + rest
      else [[s[0]] + rest[0]] + rest[1..]
  }

  /** Joining the pieces of a split with the separator gives back the string. */
  lemma {:induction false} JoinOfSplit(s: string, sep: char)
    ensures Join(Split(s, sep), [sep]) == s
  {
    if s != [] {
      var rest := Split(s[1..], sep);
      JoinOfSplit(s[1..], sep);
      if s[0] == sep {
        assert ([""] + rest)[1..] == rest;
        assert Join([""] + rest, [sep]) == [sep] + Join(rest, [sep]);
      } else {
        var pieces := [[s[0]] + rest[0]] + rest[1..];
        if |rest| > 1 {
          assert pieces[1..] == rest[1..];
          assert Join(rest, [sep]) == rest[0] + [sep] + Join(rest[1..], [sep]);
        }
        assert Join(pieces, [sep]) == [s[0]] + Join(rest, [sep]);
        assert [s[0]] + s[1..] == s;
      }
    }
  }

  /** Splitting undoes joining when no piece contains the separator. */
  lemma {:induction false} SplitOfJoin(pieces: seq<string>, sep: char)
    requires |pieces| >= 1
    requires forall i :: 0 <= i < |pieces| ==> sep !in pieces[i]
    ensures Split(Join(pieces, [sep]), sep) == pieces
  {
    if |pieces| == 1 {
      SplitOfPiece(pieces[0], [], sep);
      assert pieces[0] + [] == pieces[0];
      assert [pieces[0] + ""] == pieces;
    } else {
      var tail := Join(pieces[1..], [sep]);
      SplitOfJoin(pieces[1..], sep);
      assert Split([sep] + tail, sep) == [""] + pieces[1..] by {
        assert ([sep] + tail)[1..] == tail;
      }
      SplitOfPiece(pieces[0], [sep] + tail, sep);
      assert Join(pieces, [sep]) == pieces[0] + ([sep] + tail);
      assert ([""] + pieces[1..])[1..] == pieces[1..];
      assert pieces[0] + "" == pieces[0];
      assert pieces == [pieces[0] + ""] + pieces[1..];
    }
  }

  /** A separator-free prefix is glued onto the first piece of what follows it. */
  lemma {:induction false} SplitOfPiece(piece: string, rest: string, sep: char)
    requires sep !in piece
    requires rest == [] || rest[0] == sep
    ensures var r := Split(rest, sep); Split(piece + rest, sep) == [piece + r[0]] + r[1..]
  {
    if piece != [] {
      SplitOfPiece(piece[1..], rest, sep);
      assert (piece + rest)[1..] == piece[1..] + rest;
      assert [piece[0]] + (piece[1..] + Split(rest, sep)[0]) == piece + Split(rest, sep)[0];
    } else {
      var r := Split(rest, sep);
      assert piece + rest == rest;
      assert piece + r[0] == r[0];
      assert r == [piece + r[0]] + r[1..];
    }
  }

  /** Appending one more piece to a non-empty join adds the separator and the piece. */
  lemma {:induction false} JoinSnoc(xs: seq<string>, y: string, sep: string)
    requires |xs| >= 1
    ensures Join(xs + [y], sep) == Join(xs, sep) + sep + y
  {
    if |xs| > 1 {
      JoinSnoc(xs[1..], y, sep);
      assert (xs + [y])[1..] == xs[1..] + [y];
    }
  }

  /** ASCII lower-casing of one character; every other character is kept. */
  function LowerChar(c: char): char
  {
    if 'A' <= c <= 'Z' then (c as int + 32) as char else c
  }

  /** `strings.ToLower`, restricted to the ASCII letters. */
  function ToLower(s: string): (r: string)
    ensures |r| == |s|
    ensures forall i :: 0 <= i < |s| ==> r[i] == LowerChar(s[i])
  {
    if s == [] then [] else [LowerChar(s[0])] + ToLower(s[1..])
  }

  /** `strings.Builder`: an append-only buffer reached through a pointer. */
  class Builder<T> {
    var buf: seq<T>

    constructor ()
      ensures buf == []
    {
      buf := [];
    }

    /** `WriteString` / `Write`: appends `s` and reports how much was written (never an error). */
    method WriteString(s: seq<T>) returns (n: nat)
      modifies this
      ensures buf == old(buf) + s
      ensures n == |s|
    {
      buf := buf + s;
      n := |s|;
    }

    /** `String()`: everything written so far. */
    function String(): seq<T>
      reads this
    {
      buf
    }
  }
}
