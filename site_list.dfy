/** The site list: the text of the bundled sites file, cut into one entry per line
    exactly as `String.prototype.split` with the pattern /\n/ does. */
module SiteList {

  /** Number of newline characters in `txt`. */
  function Newlines(txt: string): nat
  {
    if txt == [] then 0 else (if txt[0] == '\n' then 1 else 0) + Newlines(txt[1..])
  }

  /** The entries of `txt.split(/\n/)`: every newline ends an entry, empty entries are kept,
      and the empty text gives one empty entry. */
  function SplitLines(txt: string): (lines: seq<string>)
    ensures |lines| == Newlines(txt) + 1
    ensures forall k :: 0 <= k < |lines| ==> '\n' !in lines[k]
  {
    if txt == [] then [""]
    else
      var rest := SplitLines(txt[1..]);
      if txt[0] == '\n' then [""] + rest
      else [[txt[0]] + rest[0]] + rest[1..]
  }

  /** The inverse of the split: the entries glued back together with newlines. */
  function Join(lines: seq<string>): string
    requires |lines| > 0
  {
    if |lines| == 1 then lines[0] else lines[0] + "\n" + Join(lines[1..])
  }

  /** Splitting loses nothing: joining the entries gives back the text, so no line,
      blank or not, is dropped, merged or reordered. */
  lemma {:induction false} JoinSplit(txt: string)
    ensures Join(SplitLines(txt)) == txt
  {
    if txt != [] {
      JoinSplit(txt[1..]);
      var rest := SplitLines(txt[1..]);
      if txt[0] == '\n' {
        assert SplitLines(txt) == [""] + rest;
        assert txt == [txt[0]] + txt[1..];
      } else {
        var lines := SplitLines(txt);
        assert lines == [[txt[0]] + rest[0]] + rest[1..];
        if |rest| == 1 {
          assert txt == [txt[0]] + txt[1..];
        } else {
          assert lines[1..] == rest[1..];
          assert Join(rest) == rest[0] + "\n" + Join(rest[1..]);
          assert txt == [txt[0]] + txt[1..];
        }
      }
    }
  }

  /** A prefix without newlines only extends the first entry. */
  lemma {:induction false} SplitLinesPrefix(a: string, t: string)
    requires '\n' !in a
    ensures SplitLines(a + t) == [a + SplitLines(t)[0]] + SplitLines(t)[1..]
  {
    if a != [] {
      SplitLinesPrefix(a[1..], t);
      assert (a + t)[1..] == a[1..] + t;
      assert [a[0]] + (a[1..] + SplitLines(t)[0]) == a + SplitLines(t)[0];
    } else {
      var s := SplitLines(t);
      assert a + t == t && a + s[0] == s[0];
      assert s == [s[0]] + s[1..];
    }
  }

  /** Splitting is also a left inverse of joining newline-free entries, so the list
      the batch walks is exactly the lines of the file. */
  lemma {:induction false} SplitJoin(lines: seq<string>)
    requires |lines| > 0
    requires forall k :: 0 <= k < |lines| ==> '\n' !in lines[k]
    ensures SplitLines(Join(lines)) == lines
  {
    if |lines| == 1 {
      SplitLinesPrefix(lines[0], "");
      assert lines[0] + "" == lines[0];
    } else {
      SplitJoin(lines[1..]);
      var tail := "\n" + Join(lines[1..]);
      SplitLinesPrefix(lines[0], tail);
      assert tail[1..] == Join(lines[1..]);
      assert SplitLines(tail) == [""] + lines[1..];
      assert lines[0] + "" == lines[0];
      assert lines[0] + tail == lines[0] + "\n" + Join(lines[1..]);
    }
  }
}
