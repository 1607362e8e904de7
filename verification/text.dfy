/** Newline structure of text: splitting a string into its lines, as
    JavaScript's `split("\n")` does, and joining lines back. Used to state
    what the report message looks like line by line. */
module Text {

  /** The string has no line break. */
  predicate LineFree(s: string) {
    '\n' !in s
  }

  /** The pieces of `s` between line breaks, in order; a string with k line
      breaks has k + 1 pieces, some possibly empty. */
  function Lines(s: string): (r: seq<string>)
    ensures |r| >= 1
    ensures forall i :: 0 <= i < |r| ==> LineFree(r[i])
    decreases |s|
  {
    if |s| == 0 then [""]
    else
      var rest := Lines(s[1..]);
      if s[0] == '\n' then [""] + rest
      else [[s[0]] + rest[0]] + rest[1..]
  }

  /** The pieces glued back together with line breaks between them. */
  function Join(pieces: seq<string>): string
    requires |pieces| >= 1
    decreases |pieces|
  {
    if |pieces| == 1 then pieces[0] else pieces[0] + "\n" + Join(pieces[1..])
  }

  /** Splitting loses nothing: joining the lines gives the string back. */
  lemma {:induction false} JoinLines(s: string)
    ensures Join(Lines(s)) == s
    decreases |s|
  {
    if |s| > 0 {
      var rest := Lines(s[1..]);
      JoinLines(s[1..]);
      if s[0] == '\n' {
        assert Lines(s) == [""] + rest;
        assert (["" ] + rest)[1..] == rest;
      } else {
        var r := Lines(s);
        assert r == [[s[0]] + rest[0]] + rest[1..];
        if |rest| == 1 {
          assert Join(r) == [s[0]] + rest[0];
        } else {
          assert r[1..] == rest[1..];
          assert Join(r) == [s[0]] + rest[0] + "\n" + Join(rest[1..]);
        }
        assert s == [s[0]] + s[1..];
      }
    }
  }

  /** A string without line breaks is a single line. */
  lemma {:induction false} LinesOfLineFree(a: string)
    requires LineFree(a)
    ensures Lines(a) == [a]
    decreases |a|
  {
    if |a| > 0 {
      assert LineFree(a[1..]) by {
        forall c | c in a[1..] ensures c != '\n' {
          assert c in a;
        }
      }
      LinesOfLineFree(a[1..]);
      assert a == [a[0]] + a[1..];
    }
  }

  /** A line followed by a line break contributes exactly that line. */
  lemma {:induction false} LinesAfterLine(a: string, b: string)
    requires LineFree(a)
    ensures Lines(a + "\n" + b) == [a] + Lines(b)
    decreases |a|
  {
    var s := a + "\n" + b;
    if |a| == 0 {
      assert s == "\n" + b;
      assert s[1..] == b;
    } else {
      assert s[1..] == a[1..] + "\n" + b;
      assert s[0] == a[0];
      assert LineFree(a[1..]) by {
        forall c | c in a[1..] ensures c != '\n' {
          assert c in a;
        }
      }
      LinesAfterLine(a[1..], b);
      assert a == [a[0]] + a[1..];
    }
  }
}
