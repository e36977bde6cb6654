/**
 * The Python string operations the post generator relies on, restricted to
 * what it uses: `str.lower()` (ASCII part), `str.replace` of one character
 * and `str.join`. `Split` (`str.split`) is not used by the generator; it is
 * here for the reader of posts, and is proved to undo `Join`.
 */
module Text {

  predicate IsUpper(c: char) { 'A' <= c <= 'Z' }

  /** `str.lower()` on one character, for the ASCII letters; every other character is kept. */
  function LowerChar(c: char): (d: char)
    ensures !IsUpper(d)
    ensures IsUpper(c) ==> 'a' <= d <= 'z' && d as int - 'a' as int == c as int - 'A' as int
    ensures d == c <==> !IsUpper(c)
    ensures d == ' ' <==> c == ' '
  {
    if IsUpper(c) then (c as int + 32) as char else c
  }

  /** `s.lower()`: lowercases character by character, so the length is kept. */
  function Lower(s: string): (r: string)
    ensures |r| == |s|
    ensures forall i :: 0 <= i < |s| ==> r[i] == LowerChar(s[i])
  {
    if s == [] then [] else [LowerChar(s[0])] + Lower(s[1..])
  }

  lemma LowerIdempotent(s: string)
    ensures Lower(Lower(s)) == Lower(s)
  {
  }

  lemma LowerConcat(a: string, b: string)
    ensures Lower(a + b) == Lower(a) + Lower(b)
  {
  }

  /** `s.replace(from, to)` for one-character `from` and `to`. */
  function ReplaceChar(s: string, from: char, to: char): (r: string)
    ensures |r| == |s|
    ensures forall i :: 0 <= i < |s| ==> r[i] == if s[i] == from then to else s[i]
  {
    if s == [] then [] else [if s[0] == from then to else s[0]] + ReplaceChar(s[1..], from, to)
  }

  /** `s.replace(c, "")`: every occurrence of `c` dropped, everything else kept in order. */
  function RemoveChar(s: string, c: char): (r: string)
    ensures c !in r
    ensures forall x :: x in r ==> x in s
    ensures c !in s ==> r == s
  {
    if s == [] then []
    else if s[0] == c then RemoveChar(s[1..], c)
    else [s[0]] + RemoveChar(s[1..], c)
  }

  lemma {:induction false} RemoveCharConcat(a: string, b: string, c: char)
    ensures RemoveChar(a + b, c) == RemoveChar(a, c) + RemoveChar(b, c)
  {
    if a != [] {
      assert (a + b)[1..] == a[1..] + b;
      RemoveCharConcat(a[1..], b, c);
    } else {
      assert a + b == b;
    }
  }

  /** `sep.join(items)`: every item once, in order, with one separator between neighbours. */
  function Join(items: seq<string>, sep: string): string
  {
    if |items| == 0 then ""
    else if |items| == 1 then items[0]
    else items[0] + sep + Join(items[1..], sep)
  }

  /** A character that is in no item and not in the separator is not in the joined text. */
  lemma {:induction false} JoinAvoids(items: seq<string>, sep: string, x: char)
    requires x !in sep
    requires forall i :: 0 <= i < |items| ==> x !in items[i]
    ensures x !in Join(items, sep)
  {
    if |items| > 1 {
      JoinAvoids(items[1..], sep, x);
    }
  }

  /** Lowercasing a joined text lowercases every item (and the separator). */
  lemma {:induction false} LowerJoin(items: seq<string>, sep: string)
    ensures Lower(Join(items, sep)) == Join(LowerAll(items), Lower(sep))
  {
    if |items| > 1 {
      assert LowerAll(items)[1..] == LowerAll(items[1..]);
      LowerJoin(items[1..], sep);
      LowerConcat(items[0] + sep, Join(items[1..], sep));
      LowerConcat(items[0], sep);
    }
  }

  function LowerAll(items: seq<string>): (r: seq<string>)
    ensures |r| == |items|
    ensures forall i :: 0 <= i < |items| ==> r[i] == Lower(items[i])
  {
    seq(|items|, i requires 0 <= i < |items| => Lower(items[i]))
  }

  /**
   * `s.split(sep)`: the pieces between non-overlapping occurrences of `sep`,
   * scanned from the left; there is always at least one piece.
   */
  function Split(s: string, sep: string): (r: seq<string>)
    requires sep != []
    ensures |r| >= 1
    decreases |s|
  {
    if |s| == 0 then [""]
    else if sep <= s then [""] + Split(s[|sep|..], sep)
    else
      var rest := Split(s[1..], sep);
      [[s[0]] + rest[0]] + rest[1..]
  }

  lemma {:induction false} SplitWithout(a: string, sep: string)
    requires sep != [] && sep[0] !in a
    ensures Split(a, sep) == [a]
  {
    if a != [] {
      assert !(sep <= a);
      SplitWithout(a[1..], sep);
      assert [a[0]] + a[1..] == a;
    }
  }

  /** A first piece that cannot start the separator is split off exactly. */
  lemma {:induction false} SplitAfter(a: string, sep: string, b: string)
    requires sep != [] && sep[0] !in a
    ensures Split(a + sep + b, sep) == [a] + Split(b, sep)
  {
    var s := a + sep + b;
    if a == [] {
      assert s == sep + b;
      assert sep <= s;
      assert s[|sep|..] == b;
    } else {
      assert s[0] == a[0];
      assert !(sep <= s);
      assert s[1..] == a[1..] + sep + b;
      SplitAfter(a[1..], sep, b);
      assert [a[0]] + a[1..] == a;
    }
  }

  /** Splitting a joined text gives the items back when no item holds the separator's first character. */
  lemma {:induction false} SplitJoin(items: seq<string>, sep: string)
    requires sep != [] && |items| >= 1
    requires forall i :: 0 <= i < |items| ==> sep[0] !in items[i]
    ensures Split(Join(items, sep), sep) == items
  {
    if |items| == 1 {
      SplitWithout(items[0], sep);
    } else {
      SplitJoin(items[1..], sep);
      SplitAfter(items[0], sep, Join(items[1..], sep));
      assert [items[0]] + items[1..] == items;
    }
  }

  /** Joined items, the separator and a rest: the split gives the items, then the pieces of the rest. */
  lemma {:induction false} SplitJoinThen(items: seq<string>, sep: string, b: string)
    requires sep != [] && |items| >= 1
    requires forall i :: 0 <= i < |items| ==> sep[0] !in items[i]
    ensures Split(Join(items, sep) + sep + b, sep) == items + Split(b, sep)
  {
    if |items| == 1 {
      SplitAfter(items[0], sep, b);
    } else {
      var tail := Join(items[1..], sep) + sep + b;
      calc {
        Split(Join(items, sep) + sep + b, sep);
      == { assert Join(items, sep) + sep + b == items[0] + sep + tail; }
        Split(items[0] + sep + tail, sep);
      == { SplitAfter(items[0], sep, tail); }
        [items[0]] + Split(tail, sep);
      == { SplitJoinThen(items[1..], sep, b); }
        [items[0]] + (items[1..] + Split(b, sep));
      == { assert items == [items[0]] + items[1..]; }
        items + Split(b, sep);
      }
    }
  }

  /** Joining the pieces of a split with the same separator gives the text back. */
  lemma {:induction false} JoinSplit(s: string, sep: string)
    requires sep != []
    ensures Join(Split(s, sep), sep) == s
    decreases |s|
  {
    if |s| == 0 {
    } else if sep <= s {
      var rest := Split(s[|sep|..], sep);
      calc {
        Join(Split(s, sep), sep);
      == { assert Split(s, sep) == [""] + rest; assert ([""] + rest)[1..] == rest; }
        "" + sep + Join(rest, sep);
      == { JoinSplit(s[|sep|..], sep); }
        "" + sep + s[|sep|..];
      == { assert s == sep + s[|sep|..]; }
        s;
      }
    } else {
      var rest := Split(s[1..], sep);
      var r := [[s[0]] + rest[0]] + rest[1..];
      calc {
        Join(Split(s, sep), sep);
        Join(r, sep);
      == { JoinCons(s[0], rest, sep); }
        [s[0]] + Join(rest, sep);
      == { JoinSplit(s[1..], sep); }
        [s[0]] + s[1..];
      == { assert [s[0]] + s[1..] == s; }
        s;
      }
    }
  }

  /** Prefixing the first item with a character prefixes the joined text with it. */
  lemma JoinCons(c: char, items: seq<string>, sep: string)
    requires |items| >= 1
    ensures Join([[c] + items[0]] + items[1..], sep) == [c] + Join(items, sep)
  {
    var r := [[c] + items[0]] + items[1..];
    if |items| > 1 {
      assert r[1..] == items[1..];
    }
  }
}
