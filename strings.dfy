/**
 * The pieces of Go's `strings` package that the core uses: `strings.Split`
 * with a one-character separator, and its inverse `strings.Join`.
 */
module Strings {

  /** Number of occurrences of `c` in `s`. */
  function Count(s: string, c: char): nat
  {
    if s == [] then 0 else (if s[0] == c then 1 else 0) + Count(s[1..], c)
  }

  /** Index of the first occurrence of `c` in `s`. */
  function IndexOf(s: string, c: char): (i: nat)
    requires c in s
    ensures i < |s| && s[i] == c && c !in s[..i]
  {
    if s[0] == c then 0 else 1 + IndexOf(s[1..], c)
  }

  /** The part of `s` before the first `c`, or all of `s` when it holds no `c`. */
  function Before(s: string, c: char): (r: string)
    ensures c !in r
    ensures c in s ==> r == s[..IndexOf(s, c)]
    ensures c !in s ==> r == s
  {
    if c in s then s[..IndexOf(s, c)] else s
  }

  /**
   * Go's `strings.Split(s, string(sep))`: the maximal pieces of `s` that hold
   * no `sep`, in order. Splitting "" gives one empty piece.
   */
  function Split(s: string, sep: char): (parts: seq<string>)
    ensures |parts| >= 1
  {
    Pieces(s, sep, "")
  }

  /** The pieces of `cur + s`, where `cur` is the piece begun so far (a left-to-right scan). */
  function Pieces(s: string, sep: char, cur: string): (parts: seq<string>)
    ensures |parts| >= 1
  {
    if s == [] then [cur]
    else if s[0] == sep then [cur] + Pieces(s[1..], sep, "")
    else Pieces(s[1..], sep, cur + [s[0]])
  }

  /** Go's `strings.Join(parts, string(sep))`. */
  function Join(parts: seq<string>, sep: char): string
  {
    if |parts| == 0 then ""
    else if |parts| == 1 then parts[0]
    else parts[0] + [sep] + Join(parts[1..], sep)
  }

  /** The first `c` of `p + [c] + t`, where `p` holds no `c`, is right after `p`. */
  lemma IndexAfterPrefix(p: string, t: string, c: char)
    requires c !in p
    ensures c in p + [c] + t
    ensures IndexOf(p + [c] + t, c) == |p|
    ensures (p + [c] + t)[..|p|] == p && (p + [c] + t)[|p| + 1..] == t
  {
    var s := p + [c] + t;
    assert s[|p|] == c;
    assert s[..|p|] == p;
  }

  lemma {:induction false} PiecesJoin(s: string, sep: char, cur: string)
    ensures Join(Pieces(s, sep, cur), sep) == cur + s
  {
    if s == [] {
      assert cur + s == cur;
    } else if s[0] == sep {
      var rest := Pieces(s[1..], sep, "");
      PiecesJoin(s[1..], sep, "");
      assert ([cur] + rest)[1..] == rest;
      assert "" + s[1..] == s[1..];
      assert cur + s == cur + [sep] + s[1..];
    } else {
      PiecesJoin(s[1..], sep, cur + [s[0]]);
      assert cur + [s[0]] + s[1..] == cur + s;
    }
  }

  lemma {:induction false} PiecesFree(s: string, sep: char, cur: string)
    requires sep !in cur
    ensures forall i :: 0 <= i < |Pieces(s, sep, cur)| ==> sep !in Pieces(s, sep, cur)[i]
  {
    if s != [] {
      if s[0] == sep {
        PiecesFree(s[1..], sep, "");
        var rest := Pieces(s[1..], sep, "");
        assert forall i :: 1 <= i < |rest| + 1 ==> ([cur] + rest)[i] == rest[i - 1];
      } else {
        PiecesFree(s[1..], sep, cur + [s[0]]);
      }
    }
  }

  lemma {:induction false} PiecesLength(s: string, sep: char, cur: string)
    ensures |Pieces(s, sep, cur)| == Count(s, sep) + 1
  {
    if s != [] {
      if s[0] == sep {
        PiecesLength(s[1..], sep, "");
      } else {
        PiecesLength(s[1..], sep, cur + [s[0]]);
      }
    }
  }

  lemma {:induction false} PiecesNoSeparator(s: string, sep: char, cur: string)
    requires sep !in s
    ensures Pieces(s, sep, cur) == [cur + s]
  {
    if s == [] {
      assert cur + s == cur;
    } else {
      assert sep !in s[1..];
      PiecesNoSeparator(s[1..], sep, cur + [s[0]]);
      assert cur + [s[0]] + s[1..] == cur + s;
    }
  }

  lemma {:induction false} PiecesAtFirst(s: string, sep: char, cur: string)
    requires sep in s
    ensures Pieces(s, sep, cur) == [cur + s[..IndexOf(s, sep)]] + Pieces(s[IndexOf(s, sep) + 1..], sep, "")
  {
    if s[0] == sep {
      assert cur + s[..0] == cur;
    } else {
      var i := IndexOf(s, sep);
      PiecesAtFirst(s[1..], sep, cur + [s[0]]);
      assert s[1..][..i - 1] == s[1..i];
      assert cur + [s[0]] + s[1..i] == cur + s[..i];
      assert s[1..][i - 1 + 1..] == s[i + 1..];
    }
  }

  /** Joining the pieces of a split gives back the original string. */
  lemma JoinSplit(s: string, sep: char)
    ensures Join(Split(s, sep), sep) == s
  {
    PiecesJoin(s, sep, "");
    assert "" + s == s;
  }

  /** No piece of a split holds the separator. */
  lemma SplitPiecesFree(s: string, sep: char)
    ensures forall i :: 0 <= i < |Split(s, sep)| ==> sep !in Split(s, sep)[i]
  {
    PiecesFree(s, sep, "");
  }

  /** A split has one piece more than there are separators. */
  lemma SplitLength(s: string, sep: char)
    ensures |Split(s, sep)| == Count(s, sep) + 1
  {
    PiecesLength(s, sep, "");
  }

  /** A string without the separator splits into itself alone. */
  lemma SplitNoSeparator(s: string, sep: char)
    requires sep !in s
    ensures Split(s, sep) == [s]
  {
    PiecesNoSeparator(s, sep, "");
    assert "" + s == s;
  }

  /** A split cuts at the first separator and then splits the rest. */
  lemma SplitAtFirst(s: string, sep: char)
    requires sep in s
    ensures Split(s, sep) == [s[..IndexOf(s, sep)]] + Split(s[IndexOf(s, sep) + 1..], sep)
  {
    PiecesAtFirst(s, sep, "");
    assert "" + s[..IndexOf(s, sep)] == s[..IndexOf(s, sep)];
  }

  /** The first piece of a split is the text before the first separator. */
  lemma SplitHead(s: string, sep: char)
    ensures Split(s, sep)[0] == Before(s, sep)
  {
    if sep in s {
      SplitAtFirst(s, sep);
    } else {
      SplitNoSeparator(s, sep);
    }
  }

  /** Splitting a join of separator-free pieces gives the pieces back. */
  lemma {:induction false} SplitJoin(parts: seq<string>, sep: char)
    requires |parts| >= 1
    requires forall i :: 0 <= i < |parts| ==> sep !in parts[i]
    ensures Split(Join(parts, sep), sep) == parts
  {
    if |parts| == 1 {
      SplitNoSeparator(parts[0], sep);
    } else {
      var t := Join(parts[1..], sep);
      IndexAfterPrefix(parts[0], t, sep);
      SplitAtFirst(parts[0] + [sep] + t, sep);
      SplitJoin(parts[1..], sep);
      assert Split(parts[0] + [sep] + t, sep) == [parts[0]] + Split(t, sep);
    }
  }

  /** Count distributes over concatenation. */
  lemma {:induction false} CountConcat(a: string, b: string, c: char)
    ensures Count(a + b, c) == Count(a, c) + Count(b, c)
  {
    if a == [] {
      assert a + b == b;
    } else {
      assert (a + b)[1..] == a[1..] + b;
      CountConcat(a[1..], b, c);
    }
  }

  /** A string has no occurrence of `c` exactly when its count is zero. */
  lemma {:induction false} CountZero(s: string, c: char)
    ensures Count(s, c) == 0 <==> c !in s
  {
    if s != [] {
      CountZero(s[1..], c);
      assert s == [s[0]] + s[1..];
    }
  }
}
