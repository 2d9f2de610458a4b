/** Message framing for SMTP: section 4.5.2 of RFC 5321. */
module Smtp {
  import opened Basics

  const CRLF: string := "\r\n"

  // --------------------------------------------------------------------------- lines

  /** Splits at every CRLF; the last piece is what follows the last one. */
  function Split(s: string): (lines: seq<string>)
    ensures |lines| > 0
  {
    if |s| == 0 then [""]
    else if CRLF <= s then [""] + Split(s[2..])
    else
      var rest := Split(s[1..]);
      [[s[0]] + rest[0]] + rest[1..]
  }

  function Join(lines: seq<string>): string
    requires |lines| > 0
  {
    if |lines| == 1 then lines[0] else lines[0] + CRLF + Join(lines[1..])
  }

  /** No line break inside. */
  predicate Unbroken(s: string) {
    forall i | 0 <= i < |s| - 1 :: !(s[i] == '\r' && s[i + 1] == '\n')
  }

  predicate AllUnbroken(lines: seq<string>) {
    forall i | 0 <= i < |lines| :: Unbroken(lines[i])
  }

  lemma {:induction false} SplitIsUnbroken(s: string)
    ensures AllUnbroken(Split(s))
    ensures |s| > 0 && s[0] == '\n' ==> |Split(s)[0]| > 0 && Split(s)[0][0] == '\n'
    ensures |Split(s)[0]| > 0 ==> |s| > 0 && Split(s)[0][0] == s[0]
  {
    if |s| > 0 {
      if CRLF <= s {
        SplitIsUnbroken(s[2..]);
      } else {
        SplitIsUnbroken(s[1..]);
        assert |s| > 1 ==> !(s[0] == '\r' && s[1] == '\n') by {
          if |s| > 1 { assert s[..2] == [s[0], s[1]]; }
        }
      }
    }
  }

  lemma {:induction false} JoinSplit(s: string)
    ensures Join(Split(s)) == s
  {
    if |s| > 0 {
      if CRLF <= s {
        JoinSplit(s[2..]);
        assert s == CRLF + s[2..];
      } else {
        JoinSplit(s[1..]);
        assert s == [s[0]] + s[1..];
      }
    }
  }

  /** Splitting is exact: text up to a line break and what follows split separately. */
  lemma {:induction false} SplitAppend(a: string, b: string)
    requires Unbroken(a)
    ensures Split(a + CRLF + b) == [a] + Split(b)
  {
    var s := a + CRLF + b;
    if |a| == 0 {
      assert s == CRLF + b;
    } else {
      assert s[1..] == a[1..] + CRLF + b;
      SplitAppend(a[1..], b);
      assert !(CRLF <= s) by {
        assert s[0] == a[0];
        assert |a| > 1 ==> s[1] == a[1];
        assert |a| == 1 ==> s[1] == '\r';
      }
      assert a == [a[0]] + a[1..];
    }
  }

  lemma {:induction false} SplitUnbroken(a: string)
    requires Unbroken(a)
    ensures Split(a) == [a]
  {
    if |a| > 0 {
      SplitUnbroken(a[1..]);
      assert !(CRLF <= a) by {
        assert |a| > 1 ==> !(a[0] == '\r' && a[1] == '\n');
      }
      assert a == [a[0]] + a[1..];
    }
  }

  lemma {:induction false} SplitJoin(lines: seq<string>)
    requires |lines| > 0 && AllUnbroken(lines)
    ensures Split(Join(lines)) == lines
  {
    if |lines| == 1 {
      SplitUnbroken(lines[0]);
    } else {
      SplitJoin(lines[1..]);
      SplitAppend(lines[0], Join(lines[1..]));
    }
  }

  // -------------------------------------------------------------------- dot stuffing

  /** Every LF, with the CR before it if there is one, becomes CRLF. */
  function Normalize(s: string): string {
    if |s| == 0 then ""
    else if CRLF <= s then CRLF + Normalize(s[2..])
    else if s[0] == '\n' then CRLF + Normalize(s[1..])
    else [s[0]] + Normalize(s[1..])
  }

  function StuffLine(line: string): string {
    if |line| > 0 && line[0] == '.' then "." + line else line
  }

  function StuffLines(lines: seq<string>): seq<string> {
    seq(|lines|, i requires 0 <= i < |lines| => StuffLine(lines[i]))
  }

  function DotStuff(s: string): string {
    Join(StuffLines(Split(Normalize(s))))
  }

  /** What `data` puts on the wire. */
  function Sent(s: string): string {
    DotStuff(s) + CRLF + "." + CRLF
  }

  // -------------------------------------------------------------------- the receiver

  function UnstuffLine(line: string): string {
    if |line| > 0 && line[0] == '.' then line[1..] else line
  }

  function UnstuffLines(lines: seq<string>): seq<string> {
    seq(|lines|, i requires 0 <= i < |lines| => UnstuffLine(lines[i]))
  }

  /** The lines before the first that is a single dot. */
  function BeforeDot(lines: seq<string>): seq<string> {
    if |lines| == 0 || lines[0] == "." then [] else [lines[0]] + BeforeDot(lines[1..])
  }

  /** Mail data ends at the first line that is a single dot; every other line loses its
      leading dot.  Returns the text and whatever followed the end. */
  function Receive(wire: string): Option<(string, string)> {
    var lines := Split(wire);
    var n := |BeforeDot(lines)|;
    if n >= |lines| - 1 then None
    else Some((if n == 0 then "" else Join(UnstuffLines(BeforeDot(lines))), Join(lines[n + 1..])))
  }

  // ------------------------------------------------------------------- what is proved

  lemma StuffRoundTrip(lines: seq<string>)
    ensures |StuffLines(lines)| == |lines| && UnstuffLines(StuffLines(lines)) == lines
    ensures "." !in StuffLines(lines)
    ensures AllUnbroken(lines) ==> AllUnbroken(StuffLines(lines))
  {
    forall i | 0 <= i < |lines|
      ensures UnstuffLine(StuffLine(lines[i])) == lines[i] && StuffLine(lines[i]) != "."
      ensures Unbroken(lines[i]) ==> Unbroken(StuffLine(lines[i]))
    {
    }
  }

  lemma {:induction false} BeforeFirstDot(lines: seq<string>, rest: seq<string>)
    requires "." !in lines
    ensures BeforeDot(lines + ["."] + rest) == lines
  {
    var all := lines + ["."] + rest;
    if |lines| > 0 {
      assert all[1..] == lines[1..] + ["."] + rest;
      BeforeFirstDot(lines[1..], rest);
      assert all[0] == lines[0];
    }
  }

  lemma {:induction false} SplitJoinAppend(lines: seq<string>, rest: string)
    requires |lines| > 0 && AllUnbroken(lines)
    ensures Split(Join(lines) + CRLF + rest) == lines + Split(rest)
  {
    if |lines| == 1 {
      SplitAppend(lines[0], rest);
    } else {
      SplitJoinAppend(lines[1..], rest);
      SplitAppend(lines[0], Join(lines[1..]) + CRLF + rest);
      assert Join(lines) + CRLF + rest == lines[0] + CRLF + (Join(lines[1..]) + CRLF + rest);
    }
  }

  /** The wire, line by line: the stuffed lines, none of them a single dot, then the dot. */
  lemma SentLines(s: string, after: string)
    ensures var lines := StuffLines(Split(Normalize(s)));
            && Split(Sent(s) + after) == lines + ["."] + Split(after)
            && "." !in lines && |lines| > 0
  {
    hide Split, Join, StuffLines, Normalize, AllUnbroken;
    var plain := Split(Normalize(s));
    var lines := StuffLines(plain);
    SplitIsUnbroken(Normalize(s));
    StuffRoundTrip(plain);
    SplitAppend(".", after);
    SplitJoinAppend(lines, "." + CRLF + after);
    assert Sent(s) + after == Join(lines) + CRLF + ("." + CRLF + after);
  }

  /** Whatever follows on the wire, the receiver takes exactly the CRLF-normalised
      message and leaves exactly what followed. */
  lemma ReceiveRecovers(s: string, after: string)
    ensures Receive(Sent(s) + after) == Some((Normalize(s), after))
  {
    var plain := Split(Normalize(s));
    var lines := StuffLines(plain);
    SentLines(s, after);
    var all := lines + ["."] + Split(after);
    BeforeFirstDot(lines, Split(after));
    StuffRoundTrip(plain);
    JoinSplit(Normalize(s));
    JoinSplit(after);
    assert all[|lines| + 1..] == Split(after);
  }

  /** The end-of-data sequence, at position `i` of the stream after the DATA reply. */
  predicate EndsAt(wire: string, i: nat) {
    i + 5 <= |wire| && wire[i..i + 5] == CRLF + "." + CRLF
  }

  /** An end-of-data sequence ends a line, and the next line is a dot. */
  lemma {:induction false} EndIsALine(wire: string, i: nat)
    requires EndsAt(wire, i)
    ensures exists k :: 0 < k < |Split(wire)| - 1 && Split(wire)[k] == "." && |Join(Split(wire)[..k])| == i
    decreases i
  {
    var a, b := wire[..i], wire[i + 5..];
    assert wire == a + CRLF + ("." + CRLF + b);
    var head := Split(a);
    SplitIsUnbroken(a);
    JoinSplit(a);
    SplitJoinAppend(head, "." + CRLF + b);
    SplitAppend(".", b);
    assert Split(wire) == head + ["."] + Split(b);
    assert Split(wire)[..|head|] == head;
  }

  lemma FirstDot(lines: seq<string>, rest: seq<string>, k: nat)
    requires "." !in lines && k < |lines| + 2 + |rest| && ([""] + lines + ["."] + rest)[k] == "."
    ensures k > |lines|
  {
    var all := [""] + lines + ["."] + rest;
    forall j | 0 < j <= |lines| ensures all[j] in lines {
      assert all[j] == lines[j - 1];
    }
  }

  lemma JoinAfterBreak(lines: seq<string>)
    requires |lines| > 0
    ensures Join([""] + lines) == CRLF + Join(lines)
  {
    assert ([""] + lines)[1..] == lines;
  }

  lemma {:induction false} JoinGrows(lines: seq<string>, m: nat, n: nat)
    requires 0 < m <= n <= |lines|
    ensures |Join(lines[..m])| <= |Join(lines[..n])|
  {
    if m == 1 {
      assert lines[..1][0] == lines[..n][0];
    } else {
      JoinGrows(lines[1..], m - 1, n - 1);
      assert lines[..m][1..] == lines[1..][..m - 1] && lines[..n][1..] == lines[1..][..n - 1];
    }
  }

  /** Counting the line break that ended the DATA command, the first end-of-data
      sequence is the one appended to the message. */
  lemma FirstEndIsTheAppendedOne(s: string, after: string, i: nat)
    requires EndsAt(CRLF + Sent(s) + after, i)
    ensures |DotStuff(s)| + 2 <= i
    ensures EndsAt(CRLF + Sent(s) + after, |DotStuff(s)| + 2)
  {
    hide Split, Join, Normalize, StuffLines;
    var wire := CRLF + Sent(s) + after;
    var lines := StuffLines(Split(Normalize(s)));
    SentLines(s, after);
    SplitAppend("", Sent(s) + after);
    assert wire == "" + CRLF + (Sent(s) + after);
    var all := [""] + lines + ["."] + Split(after);
    assert all == [""] + (lines + ["."] + Split(after));
    assert wire[|DotStuff(s)| + 2..|DotStuff(s)| + 7] == CRLF + "." + CRLF;
    EndIsALine(wire, i);
    var k :| 0 < k < |all| - 1 && all[k] == "." && |Join(all[..k])| == i;
    FirstDot(lines, Split(after), k);
    JoinGrows(all, |lines| + 1, k);
    assert all[..|lines| + 1] == [""] + lines;
    JoinAfterBreak(lines);
  }

  /** Normalised text has no LF on its own, and normalising again changes nothing. */
  lemma {:induction false} NormalizeIsStable(s: string)
    ensures Normalize(Normalize(s)) == Normalize(s)
    ensures forall i | 0 <= i < |Normalize(s)| && Normalize(s)[i] == '\n' :: i > 0 && Normalize(s)[i - 1] == '\r'
  {
    if |s| > 0 {
      var n := Normalize(s);
      if CRLF <= s || s[0] == '\n' {
        var rest := if CRLF <= s then s[2..] else s[1..];
        NormalizeIsStable(rest);
        assert n == CRLF + Normalize(rest) && n[2..] == Normalize(rest);
      } else {
        NormalizeIsStable(s[1..]);
        assert n[1..] == Normalize(s[1..]);
        assert |n| > 1 ==> n[1] == Normalize(s[1..])[0] != '\n';
      }
    }
  }

  /** Pieces between LFs. */
  function SplitLf(s: string): (pieces: seq<string>)
    ensures |pieces| > 0
  {
    if |s| == 0 then [""]
    else if s[0] == '\n' then [""] + SplitLf(s[1..])
    else
      var rest := SplitLf(s[1..]);
      [[s[0]] + rest[0]] + rest[1..]
  }

  function DropCr(line: string): string {
    if |line| > 0 && line[|line| - 1] == '\r' then line[..|line| - 1] else line
  }

  /** The lines of a text whose breaks are CRLF or LF alone. */
  function TextLines(s: string): seq<string> {
    var pieces := SplitLf(s);
    seq(|pieces|, i requires 0 <= i < |pieces| => if i < |pieces| - 1 then DropCr(pieces[i]) else pieces[i])
  }

  lemma BreakEndsLine(s: string)
    requires |s| > 0 && (CRLF <= s || s[0] == '\n')
    ensures TextLines(s) == [""] + TextLines(if CRLF <= s then s[2..] else s[1..])
  {
    var rest := if CRLF <= s then s[2..] else s[1..];
    if CRLF <= s {
      assert s[0] == '\r' && s[1] == '\n' && s[1..][0] == '\n' && s[1..][1..] == rest;
      assert SplitLf(s[1..]) == [""] + SplitLf(rest);
      assert ([""] + SplitLf(rest))[1..] == SplitLf(rest) && ['\r'] + "" == "\r";
      assert SplitLf(s) == ["\r"] + SplitLf(rest);
    } else {
      assert SplitLf(s) == [""] + SplitLf(rest);
    }
    assert |SplitLf(s)| > 1;
  }

  lemma CharBeginsLine(s: string)
    requires |s| > 0 && !(CRLF <= s) && s[0] != '\n'
    ensures var rest := TextLines(s[1..]); |rest| > 0 && TextLines(s) == [[s[0]] + rest[0]] + rest[1..]
  {
    var pieces, whole := SplitLf(s[1..]), SplitLf(s);
    assert whole == [[s[0]] + pieces[0]] + pieces[1..];
    if |pieces| > 1 && |pieces[0]| == 0 {
      assert |s| > 1 && s[1] == '\n' && s[..2] == [s[0], s[1]];
      assert s[0] != '\r';
    }
    hide SplitLf;
    assert |pieces| > 1 ==> DropCr([s[0]] + pieces[0]) == [s[0]] + DropCr(pieces[0]);
    var rest := TextLines(s[1..]);
    forall i | 0 <= i < |pieces| ensures TextLines(s)[i] == ([[s[0]] + rest[0]] + rest[1..])[i] {
      if i > 0 { assert whole[i] == pieces[i] && rest[1..][i - 1] == rest[i]; }
    }
  }

  /** Normalising keeps the lines of the text, whichever break ended them, and ends them all
      with CRLF. */
  lemma {:induction false} NormalizeKeepsLines(s: string)
    ensures Split(Normalize(s)) == TextLines(s)
  {
    var n := Normalize(s);
    if |s| == 0 {
    } else if CRLF <= s || s[0] == '\n' {
      var rest := if CRLF <= s then s[2..] else s[1..];
      NormalizeKeepsLines(rest);
      assert n == CRLF + Normalize(rest) && n[2..] == Normalize(rest);
      BreakEndsLine(s);
    } else {
      NormalizeKeepsLines(s[1..]);
      NormalizeIsStable(s[1..]);
      assert n[1..] == Normalize(s[1..]);
      assert |n| > 1 ==> n[1] == Normalize(s[1..])[0] != '\n';
      CharBeginsLine(s);
    }
  }
}
