/** The text the hook shows for a runner: its lines joined with line breaks,
    as JavaScript's `Array.prototype.join("\n")` does. `Split` cuts a text
    at its line breaks and is the inverse of `Join` on lines that hold no
    line break themselves, so the joined text loses nothing. */
module Text {

  /** `lines.join("\n")`: no separator before the first line or after the
      last, and the empty list joins to the empty string. */
  function Join(lines: seq<string>): (r: string)
    ensures lines == [] ==> r == ""
    ensures lines != [] ==> |lines[0]| <= |r| && r[..|lines[0]|] == lines[0]
    ensures |lines| >= 2 ==> |lines[0]| < |r| && r[|lines[0]|] == '\n'
    decreases |lines|
  {
    if |lines| == 0 then ""
    else if |lines| == 1 then lines[0]
    else lines[0] + "\n" + Join(lines[1..])
  }

  predicate NoLineBreaks(lines: seq<string>) {
    forall i :: 0 <= i < |lines| ==> '\n' !in lines[i]
  }

  /** The position of the first line break of `s`. */
  function FirstBreak(s: string): (i: nat)
    requires '\n' in s
    ensures i < |s| && s[i] == '\n' && '\n' !in s[..i]
  {
    if s[0] == '\n' then 0
    else
      assert '\n' in s[1..] by { assert s == [s[0]] + s[1..]; }
      var j := FirstBreak(s[1..]);
      assert s[..j + 1] == [s[0]] + s[1..][..j];
      1 + j
  }

  /** The lines of `s`: the pieces between its line breaks. */
  function Split(s: string): (r: seq<string>)
    ensures r != [] && NoLineBreaks(r)
    decreases |s|
  {
    if '\n' !in s then [s]
    else
      var i := FirstBreak(s);
      [s[..i]] + Split(s[i + 1..])
  }

  /** Writing one more line extends the text: after the separator when there
      were lines already, as the whole text when there were none. */
  lemma {:induction false} JoinAppend(lines: seq<string>, line: string)
    ensures Join(lines + [line]) == if lines == [] then line else Join(lines) + "\n" + line
    decreases |lines|
  {
    if |lines| >= 2 {
      JoinAppend(lines[1..], line);
      assert (lines + [line])[1..] == lines[1..] + [line];
    } else if |lines| == 1 {
      assert (lines + [line])[1..] == [line];
    }
  }

  /** Splitting the joined text gives the lines back, as long as there is at
      least one line and none holds a line break. */
  lemma {:induction false} SplitJoin(lines: seq<string>)
    requires lines != [] && NoLineBreaks(lines)
    ensures Split(Join(lines)) == lines
    decreases |lines|
  {
    if |lines| >= 2 {
      var head, rest := lines[0], Join(lines[1..]);
      assert Join(lines) == head + "\n" + rest;
      assert '\n' !in head;
      SplitAfter(head, rest);
      assert NoLineBreaks(lines[1..]) by {
        forall i | 0 <= i < |lines[1..]| ensures '\n' !in lines[1..][i] {
          assert lines[1..][i] == lines[i + 1];
        }
      }
      SplitJoin(lines[1..]);
      assert lines == [head] + lines[1..];
    } else {
      assert '\n' !in lines[0];
    }
  }

  /** A line without breaks, a break and more text split into that line
      followed by the pieces of the rest. */
  lemma SplitAfter(head: string, rest: string)
    requires '\n' !in head
    ensures Split(head + "\n" + rest) == [head] + Split(rest)
  {
    var s := head + "\n" + rest;
    assert s[|head|] == '\n';
    assert s[..|head|] == head;
    assert FirstBreak(s) == |head|;
    assert s[|head| + 1..] == rest;
  }

  /** Joining the pieces of a text gives the text back. */
  lemma {:induction false} JoinSplit(s: string)
    ensures Join(Split(s)) == s
    decreases |s|
  {
    if '\n' in s {
      var i := FirstBreak(s);
      var rest := Split(s[i + 1..]);
      JoinSplit(s[i + 1..]);
      assert Split(s) == [s[..i]] + rest;
      assert (([s[..i]] + rest)[1..]) == rest;
      assert s == s[..i] + "\n" + s[i + 1..];
    }
  }
}
