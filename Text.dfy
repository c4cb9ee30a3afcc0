/** The handful of JavaScript string operations the assistant relies on:
    `startsWith`, `includes`, `toLowerCase`, `split("\n")` and
    `join("\n")`, plus the "one line per item, each ending in a newline"
    shape that the reply formatters build with `+=`. */
module Text {

  /** `s.startsWith(p)` */
  predicate StartsWith(s: string, p: string)
  {
    |p| <= |s| && s[..|p|] == p
  }

  /** `s.includes(t)`: t occurs in s as a contiguous piece (the empty
      string occurs everywhere). */
  predicate Contains(s: string, t: string)
    decreases |s|
  {
    StartsWith(s, t) || (|s| > 0 && Contains(s[1..], t))
  }

  /** t occurs in s at offset i. */
  predicate OccursAt(s: string, t: string, i: int)
  {
    0 <= i && i + |t| <= |s| && s[i..i + |t|] == t
  }

  /** `Contains` finds exactly the occurrences of t at some offset of s. */
  lemma {:induction false} ContainsIff(s: string, t: string)
    ensures Contains(s, t) <==> exists i :: OccursAt(s, t, i)
    decreases |s|
  {
    if |s| > 0 {
      ContainsIff(s[1..], t);
      if StartsWith(s, t) {
        assert OccursAt(s, t, 0);
      } else if Contains(s[1..], t) {
        var i :| OccursAt(s[1..], t, i);
        assert s[i + 1..i + 1 + |t|] == s[1..][i..i + |t|];
        assert OccursAt(s, t, i + 1);
      }
      if exists i :: OccursAt(s, t, i) {
        var i :| OccursAt(s, t, i);
        if i > 0 {
          assert s[1..][i - 1..i - 1 + |t|] == s[i..i + |t|];
          assert OccursAt(s[1..], t, i - 1);
        } else {
          assert StartsWith(s, t);
        }
      }
    } else {
      if StartsWith(s, t) {
        assert OccursAt(s, t, 0);
      }
      if exists i :: OccursAt(s, t, i) {
        var i :| OccursAt(s, t, i);
        assert StartsWith(s, t);
      }
    }
  }

  /** A piece found in one part of a string is found in the whole. */
  lemma ContainsInConcat(a: string, b: string, t: string)
    requires Contains(a, t) || Contains(b, t)
    ensures Contains(a + b, t)
  {
    ContainsIff(a, t);
    ContainsIff(b, t);
    ContainsIff(a + b, t);
    if Contains(a, t) {
      var i :| OccursAt(a, t, i);
      assert (a + b)[i..i + |t|] == a[i..i + |t|];
      assert OccursAt(a + b, t, i);
    } else {
      var i :| OccursAt(b, t, i);
      assert (a + b)[|a| + i..|a| + i + |t|] == b[i..i + |t|];
      assert OccursAt(a + b, t, |a| + i);
    }
  }

  /** The ASCII part of `toLowerCase`. */
  function LowerChar(c: char): char
  {
    if 'A' <= c <= 'Z' then (c as int - 'A' as int + 'a' as int) as char else c
  }

  /** `s.toLowerCase()`, on ASCII letters. */
  function ToLower(s: string): (r: string)
    ensures |r| == |s|
  {
    seq(|s|, i requires 0 <= i < |s| => LowerChar(s[i]))
  }

  /** Lower-casing leaves no capital letter behind, so doing it twice is
      the same as doing it once. */
  lemma ToLowerIdempotent(s: string)
    ensures forall i :: 0 <= i < |s| ==> !('A' <= ToLower(s)[i] <= 'Z')
    ensures ToLower(ToLower(s)) == ToLower(s)
  {
    assert forall i :: 0 <= i < |s| ==> LowerChar(LowerChar(s[i])) == LowerChar(s[i]);
  }

  /** `s.split("\n")`: the pieces between newlines, at least one piece,
      none containing a newline. */
  function Split(s: string): (pieces: seq<string>)
    ensures |pieces| >= 1
    ensures forall k :: 0 <= k < |pieces| ==> '\n' !in pieces[k]
    decreases |s|
  {
    if |s| == 0 then [""]
    else
      var rest := Split(s[1..]);
      if s[0] == '\n' then [""] + rest
      else [[s[0]] + rest[0]] + rest[1..]
  }

  /** `pieces.join("\n")` */
  function Join(pieces: seq<string>): string
  {
    if |pieces| == 0 then ""
    else if |pieces| == 1 then pieces[0]
    else pieces[0] + "\n" + Join(pieces[1..])
  }

  /** Joining the pieces of a split gives the original text back. */
  lemma {:induction false} JoinSplit(s: string)
    ensures Join(Split(s)) == s
    decreases |s|
  {
    if |s| > 0 {
      var rest := Split(s[1..]);
      JoinSplit(s[1..]);
      if s[0] == '\n' {
        assert Split(s) == [""] + rest;
        assert Join([""] + rest) == "" + "\n" + Join(rest);
      } else {
        var first := [s[0]] + rest[0];
        assert Split(s) == [first] + rest[1..];
        if |rest| == 1 {
          assert Join(rest) == rest[0];
        } else {
          assert Join(rest) == rest[0] + "\n" + Join(rest[1..]);
          assert Join([first] + rest[1..]) == first + "\n" + Join(rest[1..]);
        }
        assert s == [s[0]] + s[1..];
      }
    }
  }

  /** A newline-free prefix is glued onto the first piece of the rest. */
  lemma {:induction false} SplitPrefix(a: string, t: string)
    requires '\n' !in a
    ensures Split(a + t) == [a + Split(t)[0]] + Split(t)[1..]
    decreases |a|
  {
    if |a| > 0 {
      SplitPrefix(a[1..], t);
      var r := Split(t);
      assert (a + t)[0] == a[0] && a[0] != '\n';
      assert (a + t)[1..] == a[1..] + t;
      assert Split(a + t) == [[a[0]] + (a[1..] + r[0])] + r[1..];
      assert [a[0]] + (a[1..] + r[0]) == a + r[0];
    } else {
      assert a + t == t;
      assert a + Split(t)[0] == Split(t)[0];
    }
  }

  /** Splitting a join of newline-free pieces gives the pieces back. */
  lemma {:induction false} SplitJoin(pieces: seq<string>)
    requires |pieces| >= 1
    requires forall k :: 0 <= k < |pieces| ==> '\n' !in pieces[k]
    ensures Split(Join(pieces)) == pieces
    decreases |pieces|
  {
    if |pieces| == 1 {
      SplitPrefix(pieces[0], "");
      assert Split("") == [""];
      assert pieces[0] + "" == pieces[0];
    } else {
      var rest := pieces[1..];
      SplitJoin(rest);
      var tail := "\n" + Join(rest);
      SplitPrefix(pieces[0], tail);
      assert tail[0] == '\n' && tail[1..] == Join(rest);
      assert Split(tail) == [""] + rest;
      assert Join(pieces) == pieces[0] + tail;
      assert pieces[0] + "" == pieces[0];
      assert pieces == [pieces[0]] + rest;
    }
  }

  /** Every line followed by a newline, the text a loop of
      `s += line + "\n"` builds. */
  function Lines(lines: seq<string>): string
  {
    if |lines| == 0 then "" else Lines(lines[..|lines| - 1]) + lines[|lines| - 1] + "\n"
  }

  /** Adding a line adds it and a newline at the end. */
  lemma LinesSnoc(lines: seq<string>, line: string)
    ensures Lines(lines + [line]) == Lines(lines) + line + "\n"
  {
    assert (lines + [line])[..|lines|] == lines;
  }

  /** Adding a line after an introduction line and some lines. */
  lemma LinesAfterIntro(intro: string, lines: seq<string>, line: string)
    ensures Lines([intro] + (lines + [line])) == Lines([intro] + lines) + line + "\n"
  {
    assert [intro] + (lines + [line]) == ([intro] + lines) + [line];
    LinesSnoc([intro] + lines, line);
  }

  /** Newline-terminated lines are the join of the lines and an empty
      last piece. */
  lemma {:induction false} LinesIsJoin(lines: seq<string>)
    ensures Lines(lines) == Join(lines + [""])
    decreases |lines|
  {
    if |lines| > 0 {
      var init := lines[..|lines| - 1];
      var last := lines[|lines| - 1];
      LinesIsJoin(init);
      JoinSnoc(init, last);
      assert init + [last] == lines;
      assert init + [last, ""] == lines + [""];
    }
  }

  /** Replacing the last, empty piece by `x` and an empty piece after it. */
  lemma {:induction false} JoinSnoc(init: seq<string>, x: string)
    ensures Join(init + [x, ""]) == Join(init + [""]) + x + "\n"
    decreases |init|
  {
    if |init| == 0 {
      assert Join([x, ""]) == x + "\n" + Join([""]);
    } else {
      JoinSnoc(init[1..], x);
      assert (init + [x, ""])[1..] == init[1..] + [x, ""];
      assert (init + [""])[1..] == init[1..] + [""];
    }
  }

  /** Splitting newline-terminated lines yields the lines and one empty
      piece after the last newline: one piece per line. */
  lemma SplitLines(lines: seq<string>)
    requires forall k :: 0 <= k < |lines| ==> '\n' !in lines[k]
    ensures Split(Lines(lines)) == lines + [""]
  {
    LinesIsJoin(lines);
    SplitJoin(lines + [""]);
  }
}
