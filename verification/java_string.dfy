/**
 * The two `java.lang.String` operations the address parser relies on:
 * `trim()`, which strips every character up to U+0020 from both ends, and
 * `split(",")`, which cuts at every comma and then drops the empty pieces
 * at the end (but keeps a string without any comma whole, even the empty
 * string).
 */
module JavaString {

  /** The characters `trim()` strips: every one up to and including U+0020. */
  predicate IsBlank(ch: char)
  {
    ch <= ' '
  }

  /** The first index at or after `st` that does not hold a blank, or `|s|`. */
  function SkipLeading(s: string, st: nat): (i: nat)
    requires st <= |s|
    ensures st <= i <= |s|
    ensures forall k :: st <= k < i ==> IsBlank(s[k])
    ensures i == |s| || !IsBlank(s[i])
    decreases |s| - st
  {
    if st < |s| && IsBlank(s[st]) then SkipLeading(s, st + 1) else st
  }

  /** The end, no lower than `st`, left after dropping the blanks just before `len`. */
  function SkipTrailing(s: string, st: nat, len: nat): (j: nat)
    requires st <= len <= |s|
    ensures st <= j <= len
    ensures forall k :: j <= k < len ==> IsBlank(s[k])
    ensures j == st || !IsBlank(s[j - 1])
    decreases len
  {
    if st < len && IsBlank(s[len - 1]) then SkipTrailing(s, st, len - 1) else len
  }

  /** The number of blanks `trim()` cuts from the front of `s`. */
  function LeadingBlanks(s: string): nat
    ensures LeadingBlanks(s) <= |s|
  {
    SkipLeading(s, 0)
  }

  /**
   * `String.trim()`: the result neither starts nor ends with a blank, it is
   * empty exactly when `s` holds nothing but blanks, and it is the part of
   * `s` that remains once blanks at both ends are cut away.
   */
  function Trim(s: string): (r: string)
    ensures r == [] || (!IsBlank(r[0]) && !IsBlank(r[|r| - 1]))
    ensures r == [] <==> forall k :: 0 <= k < |s| ==> IsBlank(s[k])
    ensures var i := LeadingBlanks(s);
            i + |r| <= |s| && r == s[i..i + |r|] &&
            (forall k :: 0 <= k < i ==> IsBlank(s[k])) &&
            (forall k :: i + |r| <= k < |s| ==> IsBlank(s[k]))
  {
    var st := SkipLeading(s, 0);
    var len := SkipTrailing(s, st, |s|);
    assert st < len ==> s[st..len][0] == s[st] && s[st..len][len - st - 1] == s[len - 1];
    s[st..len]
  }

  /** A string that neither starts nor ends with a blank is left as it is. */
  lemma TrimKeepsTrimmed(s: string)
    requires s == [] || (!IsBlank(s[0]) && !IsBlank(s[|s| - 1]))
    ensures Trim(s) == s
  {
  }

  /** Trimming twice is trimming once. */
  lemma TrimIdempotent(s: string)
    ensures Trim(Trim(s)) == Trim(s)
  {
    TrimKeepsTrimmed(Trim(s));
  }

  /** Every comma-separated piece of `s`, empty ones included (`split(",", -1)`). */
  function Pieces(s: string): (p: seq<string>)
    ensures |p| >= 1
    ensures forall i :: 0 <= i < |p| ==> ',' !in p[i]
    decreases |s|
  {
    if |s| == 0 then [""]
    else
      var rest := Pieces(s[1..]);
      if s[0] == ',' then [""] + rest else [[s[0]] + rest[0]] + rest[1..]
  }

  /** The pieces glued back together with a comma between each two. */
  function Join(p: seq<string>): string
    requires |p| >= 1
    decreases |p|
  {
    if |p| == 1 then p[0] else p[0] + "," + Join(p[1..])
  }

  /** `p` without its trailing empty strings. */
  function DropTrailingEmpty(p: seq<string>): (r: seq<string>)
    ensures |r| <= |p| && r == p[..|r|]
    ensures r == [] || r[|r| - 1] != ""
    ensures forall k :: |r| <= k < |p| ==> p[k] == ""
    decreases |p|
  {
    if |p| > 0 && p[|p| - 1] == "" then DropTrailingEmpty(p[..|p| - 1]) else p
  }

  /**
   * `String.split(",")`: a string without a comma comes back whole;
   * otherwise the comma-separated pieces in order, cut off after the last
   * non-empty one, so interior empty pieces stay. No piece holds a comma.
   */
  function Split(s: string): (r: seq<string>)
    ensures ',' !in s ==> r == [s]
    ensures ',' in s ==>
              |r| <= |Pieces(s)| && r == Pieces(s)[..|r|] &&
              (r == [] || r[|r| - 1] != "") &&
              (forall k :: |r| <= k < |Pieces(s)| ==> Pieces(s)[k] == "")
    ensures forall i :: 0 <= i < |r| ==> ',' !in r[i]
  {
    if ',' !in s then [s] else DropTrailingEmpty(Pieces(s))
  }

  /** Cutting at the commas loses nothing but the commas. */
  lemma {:induction false} JoinPieces(s: string)
    ensures Join(Pieces(s)) == s
    decreases |s|
  {
    if |s| > 0 {
      var rest := Pieces(s[1..]);
      JoinPieces(s[1..]);
      if s[0] == ',' {
        assert Join([""] + rest) == "" + "," + Join(rest);
        assert s == [','] + s[1..];
      } else if |rest| == 1 {
        assert s == [s[0]] + s[1..];
      } else {
        var p := [[s[0]] + rest[0]] + rest[1..];
        assert p[1..] == rest[1..];
        assert Join(rest) == rest[0] + "," + Join(rest[1..]);
        assert s == [s[0]] + s[1..];
      }
    }
  }

  /** A string without a comma is a single piece. */
  lemma {:induction false} PiecesOfCommaFree(a: string)
    requires ',' !in a
    ensures Pieces(a) == [a]
    decreases |a|
  {
    if |a| > 0 {
      assert a[0] in a && a == [a[0]] + a[1..];
      PiecesOfCommaFree(a[1..]);
    }
  }

  /** A comma-free prefix followed by a comma is the first piece. */
  lemma {:induction false} PiecesAfterComma(a: string, b: string)
    requires ',' !in a
    ensures Pieces(a + "," + b) == [a] + Pieces(b)
    decreases |a|
  {
    var s := a + "," + b;
    if |a| == 0 {
      assert s == [','] + b;
      assert s[1..] == b;
    } else {
      assert s[1..] == a[1..] + "," + b;
      PiecesAfterComma(a[1..], b);
      assert [s[0]] + a[1..] == a;
    }
  }

  /** Gluing comma-free pieces and cutting them again gives the pieces back. */
  lemma {:induction false} PiecesJoin(p: seq<string>)
    requires |p| >= 1
    requires forall i :: 0 <= i < |p| ==> ',' !in p[i]
    ensures Pieces(Join(p)) == p
    decreases |p|
  {
    if |p| == 1 {
      PiecesOfCommaFree(p[0]);
    } else {
      PiecesJoin(p[1..]);
      PiecesAfterComma(p[0], Join(p[1..]));
    }
  }

  /**
   * `split(",")` undoes joining with commas when no piece holds a comma and
   * the last piece is not empty.
   */
  lemma SplitJoin(p: seq<string>)
    requires |p| >= 1 && p[|p| - 1] != ""
    requires forall i :: 0 <= i < |p| ==> ',' !in p[i]
    ensures Split(Join(p)) == p
  {
    if |p| == 1 {
      assert Join(p) == p[0];
    } else {
      assert Join(p) == p[0] + "," + Join(p[1..]);
      assert ',' in Join(p) by {
        assert Join(p)[|p[0]|] == ',';
      }
      PiecesJoin(p);
    }
  }
}
